/**
 `createPageRuns` as it runs: entries are objects shared by the maps, the
 handles and the callbacks, and every continuation changes them in place. Each
 method is one continuation, and its contract is that what it does to the whole
 store is what `PageRunStore`'s function of the same name says.
 */
module PageRuns {
  import opened Basics
  import opened PageRunStore

  class Entry {
    const key: Key
    var opening: nat
    var operation: nat
    var promise: nat
    var state: RunState
    var refs: int
    var shown: int
    var seqNo: nat
    var closeTimer: bool

    ghost function View(): Fields
      reads this
    {
      Fields(key, opening, operation, promise, state, refs, shown, seqNo, closeTimer)
    }

    constructor (key: Key, state: RunState)
      ensures View() == Fields(key, 0, 0, 0, state, 1, 1, 0, false)
    {
      this.key, this.state := key, state;
      opening, operation, promise, seqNo := 0, 0, 0, 0;
      refs, shown, closeTimer := 1, 1, false;
    }
  }

  /** What a host holds: its entry, whether it let go, whether its tab is on screen. */
  class RunHandle {
    const mine: Entry
    var closed: bool
    var shown: bool

    constructor (mine: Entry)
      ensures this.mine == mine && !closed && shown
    {
      this.mine := mine;
      closed, shown := false, true;
    }
  }

  /** Letting the run go and starting again is reopening. */
  lemma ReopensInTwo(s: Store<Entry>, e: Entry)
    requires e in s.fields
    ensures var f := s.fields[e];
            var gone := s.With(e, f.(seqNo := 0, state := f.state.(runId := None, stale := true)));
            e in gone.fields && gone.Start(e) == s.ReopenEntry(e)
  {}

  /** The entries with `done` of them reopened. */
  ghost function SomeReopened(before: map<Entry, Fields>, done: set<Entry>): map<Entry, Fields> {
    map e | e in before :: if e in done then Reopening(before[e]) else before[e]
  }

  lemma NoneReopened(before: map<Entry, Fields>)
    ensures SomeReopened(before, {}) == before
  {}

  lemma OneReopened(before: map<Entry, Fields>, done: set<Entry>, e: Entry)
    requires e in before && e !in done
    ensures e in SomeReopened(before, done)
    ensures SomeReopened(before, done)[e := Reopening(SomeReopened(before, done)[e])]
        == SomeReopened(before, done + {e})
  {}

  class PageRuns {
    var entries: map<Key, Entry>
    var kept: seq<(Key, PageRun)>
    var byRunId: map<RunId, Entry>
    var pending: map<RunId, nat>
    var flushTimer: bool
    var inFlightOpens: int
    var earlyChanges: map<RunId, nat>
    var earlyOverflow: bool
    /** Every entry ever made: a handle or a callback may still hold it. */
    ghost var made: set<Entry>

    ghost function Views(): map<Entry, Fields>
      reads this, made
    {
      map e | e in made :: e.View()
    }

    ghost function View(): Store<Entry>
      reads this, made
    {
      Store(Views(), entries, byRunId, kept, pending, flushTimer, inFlightOpens, earlyChanges, earlyOverflow)
    }

    ghost predicate Valid()
      reads this, made
    {
      && (forall k :: k in entries ==> entries[k] in made)
      && (forall r :: r in byRunId ==> byRunId[r] in made)
    }

    constructor ()
      ensures Valid() && made == {}
      ensures View() == Store(map[], map[], map[], [], map[], false, 0, map[], false)
    {
      entries, kept, byRunId, pending := map[], [], map[], map[];
      flushTimer, inFlightOpens, earlyChanges, earlyOverflow := false, 0, map[], false;
      made := {};
    }

    method ScheduleFetch(r: RunId, n: nat)
      requires Valid()
      modifies this`pending, this`flushTimer
      ensures Valid() && View() == old(View()).ScheduleFetch(r, n)
    {
      pending := pending[r := Max(n, Get(pending, r, 0))];
      if !flushTimer { flushTimer := true; }
    }

    method Start(e: Entry)
      requires Valid() && e in made
      modifies this`inFlightOpens, e
      ensures Valid() && View() == old(View()).Start(e)
    {
      e.opening := e.opening + 1;
      inFlightOpens := inFlightOpens + 1;
      e.promise := e.opening;
      assert Views() == old(Views())[e := e.View()];
    }

    /** Returns whether the run is to be closed at once. */
    method OpenAnswered(e: Entry, opening: nat, r: RunId, run: PageRun) returns (refused: bool)
      requires Valid() && e in made
      modifies this, e
      ensures Valid() && made == old(made)
      ensures View() == old(View()).OpenAnswered(e, opening, r, run)
      ensures refused == old(View()).RefusesOpen(e, opening)
    {
      var early := if r in earlyChanges then Some(earlyChanges[r]) else None;
      earlyChanges := earlyChanges - {r};
      if opening != e.opening { return true; }
      byRunId := byRunId[r := e];
      e.state := RunState(Some(r), Some(run), None, false);
      assert Views() == old(Views())[e := e.View()];
      if early.Some? || earlyOverflow {
        ScheduleFetch(r, if early.Some? then early.value else 0);
      }
      return false;
    }

    method OpenFailed(e: Entry, opening: nat, why: string)
      requires Valid() && e in made
      modifies e
      ensures Valid() && View() == old(View()).OpenFailed(e, opening, why)
    {
      if opening != e.opening { return; }
      e.state := e.state.(error := Some(why), stale := false);
      assert Views() == old(Views())[e := e.View()];
    }

    method OpenSettled()
      requires Valid()
      modifies this`inFlightOpens, this`earlyChanges, this`earlyOverflow
      ensures Valid() && View() == old(View()).OpenSettled()
    {
      inFlightOpens := inFlightOpens - 1;
      if inFlightOpens == 0 {
        earlyChanges := map[];
        earlyOverflow := false;
      }
    }

    method Changed(r: RunId, n: nat)
      requires Valid()
      modifies this`pending, this`flushTimer, this`earlyChanges, this`earlyOverflow
      ensures Valid() && View() == old(View()).Changed(r, n)
    {
      if r !in byRunId {
        if inFlightOpens > 0 {
          if r in earlyChanges || |earlyChanges| < EARLY_CHANGES {
            earlyChanges := earlyChanges[r := Max(n, Get(earlyChanges, r, 0))];
          } else {
            earlyOverflow := true;
          }
        }
        return;
      }
      assert byRunId[r] in made;
      if n <= byRunId[r].seqNo { return; }
      ScheduleFetch(r, n);
    }

    /** Returns what to fetch and the operation fences of it. */
    method FlushStarted() returns (wanted: seq<RunId>, operations: map<RunId, Option<nat>>)
      requires Valid()
      modifies this`pending, this`flushTimer
      ensures Valid() && View() == old(View()).FlushStarted()
      ensures Enumerates(wanted, old(pending).Keys)
      ensures operations.Keys == old(pending).Keys
      ensures forall r | r in operations :: operations[r] == old(View()).Operation(r)
    {
      flushTimer := false;
      wanted, operations := [], map[];
      var left := pending.Keys;
      while left != {}
        invariant left <= old(pending).Keys
        invariant Enumerates(wanted, old(pending).Keys - left)
        invariant operations.Keys == old(pending).Keys - left
        invariant forall r | r in operations :: operations[r] == old(View()).Operation(r)
      {
        var r :| r in left;
        left := left - {r};
        wanted := wanted + [r];
        if r in byRunId { assert byRunId[r] in made; }
        operations := operations[r := if r in byRunId then Some(byRunId[r].operation) else None];
      }
      pending := map[];
    }

    /** One turn of the loop over a fetch's answer. */
    method Fetched(r: RunId, captured: Option<nat>, answer: Option<Snapshot>)
      requires Valid()
      modifies this`pending, this`flushTimer, made
      ensures Valid() && View() == old(View()).Fetched(r, captured, answer)
    {
      if r !in byRunId { return; }
      var e := byRunId[r];
      assert e in made;
      if answer.None? || answer.value.seqNo < e.seqNo { return; }
      if captured != Some(e.operation) {
        ScheduleFetch(r, 0);
        return;
      }
      e.seqNo := answer.value.seqNo;
      e.state := e.state.(runId := Some(r), run := Some(answer.value.run), error := None, stale := false);
      assert Views() == old(Views())[e := e.View()];
    }

    method FlushAnswered(wanted: seq<RunId>, operations: map<RunId, Option<nat>>, runs: map<RunId, Snapshot>)
      requires Valid()
      requires forall r | r in wanted :: r in operations
      modifies this`pending, this`flushTimer, made
      ensures Valid() && View() == old(View()).FetchedAll(wanted, operations, runs)
    {
      var i := 0;
      while i < |wanted|
        invariant i <= |wanted| && Valid()
        invariant View().FetchedAll(wanted[i..], operations, runs) == old(View()).FetchedAll(wanted, operations, runs)
      {
        var r := wanted[i];
        Fetched(r, operations[r], if r in runs then Some(runs[r]) else None);
        i := i + 1;
      }
    }

    method RerunStarted(e: Entry) returns (fences: Fences)
      requires Valid() && e in made
      modifies e
      ensures Valid() && View() == old(View()).RerunStarted(e)
      ensures fences == View().FencesOf(e)
    {
      e.operation := e.operation + 1;
      fences := Fences(e.opening, e.operation, e.seqNo);
      e.state := e.state.(stale := true);
      assert Views() == old(Views())[e := e.View()];
    }

    /** The awaited run id came. Returns whether to send the operation. */
    method RerunReady(e: Entry, fences: Fences, runId: Option<RunId>) returns (send: bool)
      requires Valid() && e in made
      modifies e
      ensures Valid()
      ensures send == (old(View()).Current(e, fences) && runId.Some?)
      ensures View() == if runId.Some? then old(View()) else old(View()).RerunWithoutRun(e, fences)
    {
      if !(fences.opening == e.opening && fences.operation == e.operation) { return false; }
      if runId.Some? { return true; }
      e.state := e.state.(stale := false);
      e.operation := e.operation + 1;
      assert Views() == old(Views())[e := e.View()];
      return false;
    }

    method RerunAnswered(e: Entry, fences: Fences, r: RunId, answer: Result<PageRun, string>)
      requires Valid() && e in made
      modifies this`pending, this`flushTimer, e
      ensures Valid() && View() == old(View()).RerunAnswered(e, fences, r, answer)
    {
      assert old(View()).fields[e] == e.View();
      hide Store.With, Store.ScheduleFetch;
      if !(fences.opening == e.opening && fences.operation == e.operation) || e.state.runId != Some(r) { return; }
      var overtaken := e.seqNo != fences.initialSeq;
      EndRerun(e, if overtaken then e.state.(stale := false)
                  else match answer
                       case Ok(run) => RunState(Some(r), Some(run), None, false)
                       case Err(why) => e.state.(error := Some(why), stale := false));
      if overtaken { ScheduleFetch(r, 0); }
    }

    /** Completion advances the fence again: a fetch begun meanwhile may have seen
        what was there before it. */
    method EndRerun(e: Entry, state: RunState)
      requires Valid() && e in made
      modifies e`state, e`operation
      ensures Valid()
      ensures View() == var f := old(View()).fields[e];
          old(View()).With(e, f.(operation := f.operation + 1, state := state))
    {
      e.state := state;
      e.operation := e.operation + 1;
      assert Views() == old(Views())[e := e.View()];
    }

    method ReopenEntry(e: Entry)
      requires Valid() && e in made
      modifies this`inFlightOpens, e
      ensures Valid() && View() == old(View()).ReopenEntry(e)
    {
      ReopensInTwo(View(), e);
      hide Store.With, Store.Start, Store.ReopenEntry;
      LetRunGo(e);
      Start(e);
    }

    /** What is shown stays, marked stale, of no run. */
    method LetRunGo(e: Entry)
      requires Valid() && e in made
      modifies e`seqNo, e`state
      ensures Valid()
      ensures View() == var f := old(View()).fields[e];
                        old(View()).With(e, f.(seqNo := 0, state := f.state.(runId := None, stale := true)))
    {
      e.seqNo := 0;
      e.state := e.state.(runId := None, stale := true);
      assert Views() == old(Views())[e := e.View()];
    }

    method Forgot(r: RunId)
      requires Valid()
      modifies this`byRunId, this`inFlightOpens, made
      ensures Valid() && View() == old(View()).Forgot(r)
    {
      if r !in byRunId { return; }
      var e := byRunId[r];
      assert e in made;
      byRunId := byRunId - {r};
      ReopenEntry(e);
    }

    method Reopen(runIds: seq<RunId>)
      requires Valid()
      modifies this`byRunId, this`inFlightOpens, made
      ensures Valid() && View() == old(View()).ForgotAll(runIds)
    {
      var i := 0;
      while i < |runIds|
        invariant i <= |runIds| && Valid()
        invariant View().ForgotAll(runIds[i..]) == old(View()).ForgotAll(runIds)
      {
        Forgot(runIds[i]);
        i := i + 1;
      }
    }

    /** Every live entry is opened again, in whatever order the map gives them. */
    method Reconnected()
      requires Valid()
      requires forall k | k in entries :: entries[k].key == k
      modifies this`byRunId, this`inFlightOpens, made
      ensures Valid() && View() == old(View()).Reconnected()
    {
      hide AllReopened;
      byRunId := map[];
      assert Views() == old(Views());
      ReopenEach();
    }

    method ReopenEach()
      requires Valid() && byRunId == map[]
      requires forall k | k in entries :: entries[k].key == k
      modifies this`inFlightOpens, made
      ensures Valid() && inFlightOpens == old(inFlightOpens) + |entries|
      ensures Views() == AllReopened(old(Views()), entries)
    {
      hide Reopening, AllReopened, SomeReopened;
      ghost var before := Views();
      ghost var done: set<Entry> := {};
      var left := entries.Keys;
      NoneReopened(before);
      while left != {}
        invariant Valid() && byRunId == map[] && left <= entries.Keys
        invariant inFlightOpens == old(inFlightOpens) + |entries| - |left|
        invariant forall e | e in done :: e in made && e.key in entries && entries[e.key] == e && e.key !in left
        invariant forall k | k in entries && k !in left :: entries[k] in done
        invariant Views() == SomeReopened(before, done)
      {
        var k :| k in left;
        left := left - {k};
        var e := entries[k];
        assert e in made;
        ReopenEntry(e);
        OneReopened(before, done, e);
        done := done + {e};
      }
      AllDone(done, before);
    }

    lemma AllDone(done: set<Entry>, before: map<Entry, Fields>)
      requires Valid() && before.Keys == made
      requires forall e | e in made :: before[e].key == e.key
      requires forall e | e in done :: e in made && e.key in entries && entries[e.key] == e
      requires forall k | k in entries :: entries[k] in done
      ensures SomeReopened(before, done) == AllReopened(before, entries)
    {
    }

    method Open(k: Key) returns (h: RunHandle)
      requires Valid()
      modifies this, made
      ensures Valid() && fresh(h) && !h.closed && h.shown && fresh(made - old(made))
      ensures k in entries && h.mine == entries[k]
      ensures k !in old(entries) ==> fresh(h.mine)
      ensures made == old(made) + {h.mine} && View() == old(View()).Opened(k, h.mine)
    {
      var e: Entry;
      if k in entries {
        e := entries[k];
        assert e in made;
        Share(e);
        assert made == old(made) + {e};
      } else {
        e := Make(k);
      }
      h := new RunHandle(e);
    }

    method Share(e: Entry)
      requires Valid() && e in made
      modifies e
      ensures Valid()
      ensures View() == var f := old(View()).fields[e];
                        old(View()).With(e, f.(closeTimer := false, refs := f.refs + 1, shown := f.shown + 1))
    {
      e.closeTimer := false;
      e.refs := e.refs + 1;
      e.shown := e.shown + 1;
      assert Views() == old(Views())[e := e.View()];
    }

    method Make(k: Key) returns (e: Entry)
      requires Valid() && k !in entries
      modifies this
      ensures Valid() && fresh(e) && made == old(made) + {e}
      ensures k in entries && entries[k] == e && View() == old(View()).Opened(k, e)
    {
      // Rows kept from the last run of this page: shown, marked stale, until it answers.
      var rows := Find(kept, k);
      e := new Entry(k, RunState(None, rows, None, rows.Some?));
      entries := entries[k := e];
      made := made + {e};
      assert Views() == old(Views())[e := e.View()];
      Start(e);
    }

    method SetVisible(h: RunHandle, visible: bool)
      requires Valid() && h.mine in made
      modifies h`shown, h.mine
      ensures Valid()
      ensures h.shown == if old(h.closed) then old(h.shown) else visible
      ensures View() == if old(h.closed) || old(h.shown) == visible then old(View())
          else old(View()).Shown(h.mine, visible)
    {
      if h.closed || visible == h.shown { return; }
      h.shown := visible;
      h.mine.shown := h.mine.shown + if visible then 1 else -1;
      assert Views() == old(Views())[h.mine := h.mine.View()];
    }

    method Close(h: RunHandle)
      requires Valid() && h.mine in made
      modifies h`closed, h.mine
      ensures Valid() && h.closed
      ensures View() == if old(h.closed) then old(View()) else old(View()).HandleClosed(h.mine, h.shown)
    {
      if h.closed { return; }
      h.closed := true;
      var e := h.mine;
      e.refs := e.refs - 1;
      if h.shown { e.shown := e.shown - 1; }
      if e.refs <= 0 { e.closeTimer := true; }
      assert Views() == old(Views())[e := e.View()];
    }

    /** Returns the promise whose run is to be closed once it is known. */
    method CloseTimerRan(e: Entry) returns (closing: Option<nat>)
      requires Valid() && e in made
      modifies this`entries, this`kept, this`byRunId, e`opening
      ensures Valid() && View() == old(View()).CloseTimerRan(e)
      ensures closing == if e.refs > 0 then None else Some(e.promise)
    {
      if e.refs > 0 { return None; }
      entries := entries - {e.key};
      if e.state.run.Some? { kept := Keep(kept, e.key, e.state.run.value); }
      e.opening := e.opening + 1;
      if e.state.runId.Some? { byRunId := byRunId - {e.state.runId.value}; }
      assert Views() == old(Views())[e := e.View()];
      return Some(e.promise);
    }
  }
}
