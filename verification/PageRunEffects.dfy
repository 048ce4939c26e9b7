/**
 How each part of the invariant survives the effects actions have: one entry's
 fields rewritten (`Touch`), an entry made, let go of or opened again, a
 promise, a rerun or a fetch moving on.
 */
module PageRunEffects {
  import opened Basics
  import opened PageRunStore
  import opened PageRunWorld
  import opened PageRunInvariants

  // ---- Roster

  lemma RosterTouch<E>(fields: map<E, Fields>, entries: map<Key, E>, byRunId: map<RunId, E>, e: E, f: Fields)
    requires Roster(fields, entries, byRunId)
    requires e in fields && f.key == fields[e].key && f.state.runId == fields[e].state.runId
    ensures Roster(fields[e := f], entries, byRunId)
  {
    forall x ensures IsLive(fields[e := f], entries, x) == IsLive(fields, entries, x) {}
  }

  lemma RosterNew<E>(fields: map<E, Fields>, entries: map<Key, E>, byRunId: map<RunId, E>, e: E, f: Fields)
    requires Roster(fields, entries, byRunId)
    requires e !in fields && f.key !in entries && f.state.runId == None
    ensures Roster(fields[e := f], entries[f.key := e], byRunId)
  {}

  lemma RosterLetGo<E>(fields: map<E, Fields>, entries: map<Key, E>, byRunId: map<RunId, E>, e: E, f: Fields)
    requires Roster(fields, entries, byRunId)
    requires IsLive(fields, entries, e) && f.key == fields[e].key && f.state == fields[e].state
    ensures Roster(fields[e := f], entries - {f.key},
                   if f.state.runId.Some? then byRunId - {f.state.runId.value} else byRunId)
  {}

  lemma RosterAdopt<E>(fields: map<E, Fields>, entries: map<Key, E>, byRunId: map<RunId, E>, e: E, f: Fields, r: RunId)
    requires Roster(fields, entries, byRunId)
    requires IsLive(fields, entries, e) && fields[e].state.runId == None && r !in byRunId
    requires f.key == fields[e].key && f.state.runId == Some(r)
    ensures Roster(fields[e := f], entries, byRunId[r := e])
  {}

  lemma RosterForget<E>(fields: map<E, Fields>, entries: map<Key, E>, byRunId: map<RunId, E>, r: RunId, f: Fields)
    requires Roster(fields, entries, byRunId)
    requires r in byRunId && f.key == fields[byRunId[r]].key && f.state.runId == None
    ensures Roster(fields[byRunId[r] := f], entries, byRunId - {r})
  {}

  // ---- Promises

  lemma PromisesTouch<E>(fields: map<E, Fields>, entries: map<Key, E>, opens: map<(E, nat), Promise>, e: E, f: Fields)
    requires Promises(fields, entries, opens)
    requires e in fields && f.key == fields[e].key && f.promise == fields[e].promise && f.opening == fields[e].opening
    requires Held(f) ==> ShowsAnswer(f, opens[(e, f.promise)])
    ensures Promises(fields[e := f], entries, opens)
  {
    forall x ensures IsLive(fields[e := f], entries, x) == IsLive(fields, entries, x) {}
  }

  lemma PromisesAnswer<E>(
    fields: map<E, Fields>, entries: map<Key, E>, opens: map<(E, nat), Promise>, e: E, f: Fields, p: nat, x: Promise)
    requires Promises(fields, entries, opens)
    requires e in fields && f.key == fields[e].key && f.promise == fields[e].promise && f.opening == fields[e].opening
    requires (e, p) in opens
    requires if Held(f) && p == f.promise then ShowsAnswer(f, x) else f == fields[e]
    ensures Promises(fields[e := f], entries, opens[(e, p) := x])
  {
    forall y ensures IsLive(fields[e := f], entries, y) == IsLive(fields, entries, y) {}
  }

  lemma PromisesMove<E>(
    fields: map<E, Fields>, entries: map<Key, E>, opens: map<(E, nat), Promise>, q: (E, nat), x: Promise)
    requires Promises(fields, entries, opens)
    requires q in opens && q.0 in fields
    requires Held(fields[q.0]) && q.1 == fields[q.0].promise ==> ShowsAnswer(fields[q.0], x)
    ensures Promises(fields, entries, opens[q := x])
  {}

  lemma PromisesNew<E>(fields: map<E, Fields>, entries: map<Key, E>, opens: map<(E, nat), Promise>, e: E, f: Fields)
    requires Promises(fields, entries, opens)
    requires forall k | k in entries :: entries[k] in fields
    requires e !in fields && f.key !in entries
    requires f.state.runId == None && f.seqNo == 0 && f.promise == f.opening
    ensures Promises(fields[e := f], entries[f.key := e], opens[(e, f.promise) := Requested])
  {
    forall y | y != e ensures IsLive(fields[e := f], entries[f.key := e], y) == IsLive(fields, entries, y) {}
  }

  lemma PromisesLetGo<E>(fields: map<E, Fields>, entries: map<Key, E>, opens: map<(E, nat), Promise>, e: E)
    requires Promises(fields, entries, opens)
    requires IsLive(fields, entries, e)
    ensures Promises(fields[e := fields[e].(opening := fields[e].opening + 1)], entries - {fields[e].key}, opens)
  {
    var f := fields[e].(opening := fields[e].opening + 1);
    forall y | y != e ensures IsLive(fields[e := f], entries - {f.key}, y) == IsLive(fields, entries, y) {}
  }

  lemma PromisesReopen<E>(fields: map<E, Fields>, entries: map<Key, E>, opens: map<(E, nat), Promise>, e: E)
    requires Promises(fields, entries, opens)
    requires IsLive(fields, entries, e)
    ensures var f := Reopening(fields[e]);
            Promises(fields[e := f], entries, opens[(e, f.promise) := Requested])
  {
    var f := Reopening(fields[e]);
    forall y ensures IsLive(fields[e := f], entries, y) == IsLive(fields, entries, y) {}
  }

  // ---- Versions

  lemma VersionsTouch<E>(
    fields: map<E, Fields>, byRunId: map<RunId, E>, daemon: map<RunId, nat>, returned: set<RunId>, e: E, f: Fields)
    requires Versions(fields, byRunId, daemon, returned)
    requires e in fields
    requires forall r | r in byRunId && byRunId[r] == e :: r in daemon ==> ShowsBetween(f, r, daemon[r])
    ensures Versions(fields[e := f], byRunId, daemon, returned)
  {}

  // ---- Fetches

  /** What may happen to an entry so that its fence or its sequence check still
      turns away what fetches in flight could bring too late. */
  ghost predicate Guarded(f: Fields, g: Fields) {
    || f.operation < g.operation
    || (f.operation == g.operation && (g.seqNo == Screen(g) || (Screen(g) == Screen(f) && g.seqNo == f.seqNo)))
  }

  lemma FetchesTouch<E>(
    fields: map<E, Fields>, byRunId: map<RunId, E>, daemon: map<RunId, nat>, returned: set<RunId>,
    pending: map<RunId, nat>, fetches: map<nat, Fetch>, e: E, f: Fields)
    requires Fetches(fields, byRunId, daemon, returned, pending, fetches)
    requires e in fields && Guarded(fields[e], f)
    ensures Fetches(fields[e := f], byRunId, daemon, returned, pending, fetches)
  {
    forall g, r | g in fetches && r in fetches[g].wanted
      ensures Fenced(fields[e := f], byRunId, daemon, returned, fetches[g], r)
    {
      assert Fenced(fields, byRunId, daemon, returned, fetches[g], r);
    }
  }

  lemma FetchesRoster<E>(
    fields: map<E, Fields>, byRunId: map<RunId, E>, byRunId': map<RunId, E>, daemon: map<RunId, nat>,
    returned: set<RunId>,
    pending: map<RunId, nat>, fetches: map<nat, Fetch>)
    requires Fetches(fields, byRunId, daemon, returned, pending, fetches)
    requires forall r | r in byRunId' :: r in byRunId && byRunId'[r] == byRunId[r]
    ensures Fetches(fields, byRunId', daemon, returned, pending, fetches)
  {
    forall g, r | g in fetches && r in fetches[g].wanted
      ensures Fenced(fields, byRunId', daemon, returned, fetches[g], r)
    {
      assert Fenced(fields, byRunId, daemon, returned, fetches[g], r);
    }
  }

  /** A run's open is answered: no fetch read a fence of it before. */
  lemma FetchesReturn<E>(
    fields: map<E, Fields>, byRunId: map<RunId, E>, daemon: map<RunId, nat>, returned: set<RunId>,
    pending: map<RunId, nat>, fetches: map<nat, Fetch>, r: RunId, e: E)
    requires Fetches(fields, byRunId, daemon, returned, pending, fetches)
    requires r !in returned
    ensures Fetches(fields, byRunId[r := e], daemon, returned + {r}, pending, fetches)
    ensures Fetches(fields, byRunId, daemon, returned + {r}, pending, fetches)
  {
    forall g, x | g in fetches && x in fetches[g].wanted
      ensures Fenced(fields, byRunId[r := e], daemon, returned + {r}, fetches[g], x)
      ensures Fenced(fields, byRunId, daemon, returned + {r}, fetches[g], x)
    {
      assert Fenced(fields, byRunId, daemon, returned, fetches[g], x);
    }
  }

  /** An entry that holds no run changes, or is made. */
  lemma FetchesAside<E>(
    fields: map<E, Fields>, byRunId: map<RunId, E>, daemon: map<RunId, nat>, returned: set<RunId>,
    pending: map<RunId, nat>, fetches: map<nat, Fetch>, e: E, f: Fields)
    requires Fetches(fields, byRunId, daemon, returned, pending, fetches)
    requires forall r | r in byRunId :: byRunId[r] != e
    ensures Fetches(fields[e := f], byRunId, daemon, returned, pending, fetches)
  {
    forall g, r | g in fetches && r in fetches[g].wanted
      ensures Fenced(fields[e := f], byRunId, daemon, returned, fetches[g], r)
    {
      assert Fenced(fields, byRunId, daemon, returned, fetches[g], r);
    }
  }

  // ---- Reruns

  lemma RerunsTouch<E>(
    fields: map<E, Fields>, daemon: map<RunId, nat>, opens: map<(E, nat), Promise>, reruns: map<(E, nat), Rerun>, e: E,
    f: Fields)
    requires Reruns(fields, daemon, opens, reruns)
    requires e in fields && fields[e].opening == f.opening && fields[e].promise == f.promise
    requires
      || fields[e].operation < f.operation
      || (&& fields[e].operation == f.operation && fields[e].seqNo <= f.seqNo
          && fields[e].state.runId == f.state.runId
          && (fields[e].seqNo == f.seqNo ==> Screen(f) <= Screen(fields[e])))
    ensures Reruns(fields[e := f], daemon, opens, reruns)
  {
    forall q | q in reruns ensures RerunFenced(fields[e := f], daemon, opens, q, reruns[q]) {
      assert RerunFenced(fields, daemon, opens, q, reruns[q]);
    }
  }

  /** Opened again or let go of: every rerun in flight on it is stopped. */
  lemma RerunsReopen<E>(
    fields: map<E, Fields>, daemon: map<RunId, nat>, opens: map<(E, nat), Promise>, reruns: map<(E, nat), Rerun>, e: E,
    f: Fields)
    requires Reruns(fields, daemon, opens, reruns)
    requires e in fields && fields[e].opening < f.opening && fields[e].operation == f.operation
    ensures Reruns(fields[e := f], daemon, opens, reruns)
  {
    forall q | q in reruns ensures RerunFenced(fields[e := f], daemon, opens, q, reruns[q]) {
      assert RerunFenced(fields, daemon, opens, q, reruns[q]);
    }
  }

  /** A run taken up: no rerun was sent while there was none. */
  lemma RerunsAdopt<E>(
    fields: map<E, Fields>, daemon: map<RunId, nat>, opens: map<(E, nat), Promise>, reruns: map<(E, nat), Rerun>, e: E,
    f: Fields)
    requires Reruns(fields, daemon, opens, reruns)
    requires e in fields && fields[e].state.runId == None && f == fields[e].(state := f.state)
    ensures Reruns(fields[e := f], daemon, opens, reruns)
  {
    forall q | q in reruns ensures RerunFenced(fields[e := f], daemon, opens, q, reruns[q]) {
      assert RerunFenced(fields, daemon, opens, q, reruns[q]);
    }
  }

  lemma RerunsNew<E>(
    fields: map<E, Fields>, daemon: map<RunId, nat>, opens: map<(E, nat), Promise>, reruns: map<(E, nat), Rerun>, e: E,
    f: Fields)
    requires Reruns(fields, daemon, opens, reruns)
    requires e !in fields
    ensures Reruns(fields[e := f], daemon, opens, reruns)
  {
    forall q | q in reruns ensures RerunFenced(fields[e := f], daemon, opens, q, reruns[q]) {
      assert RerunFenced(fields, daemon, opens, q, reruns[q]);
    }
  }

  lemma RerunsGrow<E>(
    fields: map<E, Fields>, daemon: map<RunId, nat>, daemon': map<RunId, nat>,
    opens: map<(E, nat), Promise>, opens': map<(E, nat), Promise>, reruns: map<(E, nat), Rerun>)
    requires Reruns(fields, daemon, opens, reruns)
    requires forall r | r in daemon :: r in daemon' && daemon[r] <= daemon'[r]
    requires opens.Keys <= opens'.Keys
    ensures Reruns(fields, daemon', opens', reruns)
  {
    forall q | q in reruns ensures RerunFenced(fields, daemon', opens', q, reruns[q]) {
      assert RerunFenced(fields, daemon, opens, q, reruns[q]);
    }
  }

  // ---- Marks

  /** `e` changes and one of its own requests may move on; other entries' do not. */
  lemma MarksTouch<E>(
    fields: map<E, Fields>, opens: map<(E, nat), Promise>, opens': map<(E, nat), Promise>,
    reruns: map<(E, nat), Rerun>, reruns': map<(E, nat), Rerun>, e: E, f: Fields)
    requires Marks(fields, opens, reruns)
    requires forall q | q in opens && q.0 != e :: q in opens' && opens'[q] == opens[q]
    requires forall q | q in reruns && q.0 != e :: q in reruns' && reruns'[q] == reruns[q]
    requires Held(f) && f.state.stale ==> Unmarking(e, f, opens', reruns')
    ensures Marks(fields[e := f], opens', reruns')
  {
    var after := fields[e := f];
    forall x | x in after && Held(after[x]) && after[x].state.stale
      ensures Unmarking(x, after[x], opens', reruns')
    {
      if x != e { assert Unmarking(x, fields[x], opens, reruns); }
    }
  }

  lemma MarksMove<E>(
    fields: map<E, Fields>, opens: map<(E, nat), Promise>, reruns: map<(E, nat), Rerun>, q: (E, nat), x: Promise)
    requires Marks(fields, opens, reruns)
    requires q in opens && q.0 in fields
    requires q.1 == fields[q.0].promise && Held(fields[q.0]) && opens[q].Waiting() ==>
               x.Waiting() || !fields[q.0].state.stale
    ensures Marks(fields, opens[q := x], reruns)
  {
    forall e | e in fields && Held(fields[e]) && fields[e].state.stale
        ensures Unmarking(e, fields[e], opens[q := x], reruns) {
      assert Unmarking(e, fields[e], opens, reruns);
    }
  }

  /** A rerun ends that was overtaken, or whose entry was let go of. */
  lemma MarksEnd<E>(fields: map<E, Fields>, opens: map<(E, nat), Promise>, reruns: map<(E, nat), Rerun>, q: (E, nat))
    requires Marks(fields, opens, reruns)
    requires q in reruns && q.0 in fields
    requires !Held(fields[q.0]) || q.1 != fields[q.0].operation || reruns[q].fences.opening != fields[q.0].opening
    ensures Marks(fields, opens, reruns - {q})
  {
    forall e | e in fields && Held(fields[e]) && fields[e].state.stale
        ensures Unmarking(e, fields[e], opens, reruns - {q}) {
      assert Unmarking(e, fields[e], opens, reruns);
    }
  }

  lemma MarksSent<E>(
    fields: map<E, Fields>, opens: map<(E, nat), Promise>, reruns: map<(E, nat), Rerun>, q: (E, nat), x: Rerun)
    requires Marks(fields, opens, reruns)
    requires q in reruns && reruns[q].fences == x.fences
    ensures Marks(fields, opens, reruns[q := x])
  {
    forall e | e in fields && Held(fields[e]) && fields[e].state.stale
        ensures Unmarking(e, fields[e], opens, reruns[q := x]) {
      assert Unmarking(e, fields[e], opens, reruns);
    }
  }

  // ---- Debts

  lemma DebtsPending<E>(
    fields: map<E, Fields>, byRunId: map<RunId, E>, pending: map<RunId, nat>, pending': map<RunId, nat>,
    missed: set<RunId>,
    fetches: map<nat, Fetch>, announced: map<RunId, nat>)
    requires Debts(fields, byRunId, pending, missed, fetches, announced)
    requires pending.Keys <= pending'.Keys
    ensures Debts(fields, byRunId, pending', missed, fetches, announced)
  {}

  lemma DebtsTouch<E>(
    fields: map<E, Fields>, byRunId: map<RunId, E>, pending: map<RunId, nat>, pending': map<RunId, nat>,
    missed: set<RunId>,
    fetches: map<nat, Fetch>, announced: map<RunId, nat>, e: E, f: Fields)
    requires Debts(fields, byRunId, pending, missed, fetches, announced)
    requires e in fields ==> fields[e].seqNo <= f.seqNo
    requires pending.Keys <= pending'.Keys
    ensures Debts(fields[e := f], byRunId, pending', missed, fetches, announced)
  {}

  /** A run leaves the roster, or its entry starts over. */
  lemma DebtsForget<E>(
    fields: map<E, Fields>, byRunId: map<RunId, E>, pending: map<RunId, nat>, missed: set<RunId>,
    fetches: map<nat, Fetch>, announced: map<RunId, nat>, e: E, f: Fields, byRunId': map<RunId, E>)
    requires Debts(fields, byRunId, pending, missed, fetches, announced)
    requires forall r | r in byRunId' :: r in byRunId && byRunId'[r] == byRunId[r] && byRunId[r] != e
    ensures Debts(fields[e := f], byRunId', pending, missed, fetches, announced)
  {}

  // ---- Ledger

  lemma LedgerTouch<E>(
    fields: map<E, Fields>, opens: map<(E, nat), Promise>, maker: map<RunId, (E, nat)>, closers: set<(E, nat)>,
    returned: set<RunId>, dropped: set<RunId>, closed: map<RunId, nat>, e: E, f: Fields)
    requires Ledger(fields, opens, maker, closers, returned, dropped, closed)
    requires e in fields && f.promise == fields[e].promise && f.opening == fields[e].opening
    ensures Ledger(fields[e := f], opens, maker, closers, returned, dropped, closed)
  {}

  /** A promise moves on without changing what it holds. */
  lemma LedgerPromise<E>(
    fields: map<E, Fields>, opens: map<(E, nat), Promise>, maker: map<RunId, (E, nat)>, closers: set<(E, nat)>,
    returned: set<RunId>, dropped: set<RunId>, closed: map<RunId, nat>, q: (E, nat), x: Promise)
    requires Ledger(fields, opens, maker, closers, returned, dropped, closed)
    requires q in opens ==> forall r | r in returned :: x.Holds(r) == opens[q].Holds(r)
    ensures Ledger(fields, opens[q := x], maker, closers, returned, dropped, closed)
  {}

  lemma LedgerNew<E>(
    fields: map<E, Fields>, opens: map<(E, nat), Promise>, maker: map<RunId, (E, nat)>, closers: set<(E, nat)>,
    returned: set<RunId>, dropped: set<RunId>, closed: map<RunId, nat>, e: E, f: Fields)
    requires Ledger(fields, opens, maker, closers, returned, dropped, closed)
    requires e !in fields
    ensures Ledger(fields[e := f], opens, maker, closers, returned, dropped, closed)
  {}

  /** Run `r`'s open is answered: taken up by the entry or closed at once. */
  lemma LedgerReturn<E>(
    fields: map<E, Fields>, opens: map<(E, nat), Promise>, maker: map<RunId, (E, nat)>, closers: set<(E, nat)>,
    returned: set<RunId>, dropped: set<RunId>, closed: map<RunId, nat>, q: (E, nat), r: RunId, taken: bool)
    requires Ledger(fields, opens, maker, closers, returned, dropped, closed)
    requires q in opens && opens[q].Created? && q.0 in fields
    requires r !in returned && r in maker && maker[r] == q
    requires taken ==> q.1 == fields[q.0].promise && Held(fields[q.0])
    ensures Ledger(fields, opens[q := Replied(if taken then Some(r) else None)], maker, closers, returned + {r},
                   dropped,
                   if taken then closed else closed[r := Get(closed, r, 0) + 1])
  {}

  /** An entry let go of, a close of its run to follow. */
  lemma LedgerLetGo<E>(
    fields: map<E, Fields>, opens: map<(E, nat), Promise>, maker: map<RunId, (E, nat)>, closers: set<(E, nat)>,
    returned: set<RunId>, dropped: set<RunId>, closed: map<RunId, nat>, e: E, f: Fields)
    requires Ledger(fields, opens, maker, closers, returned, dropped, closed)
    requires e in fields && Held(fields[e]) && f.promise == fields[e].promise && f.opening == f.promise + 1
    ensures Ledger(fields[e := f], opens, maker, closers + {(e, f.promise)}, returned, dropped, closed)
  {}

  /** That close is issued. */
  lemma LedgerClose<E>(
    fields: map<E, Fields>, opens: map<(E, nat), Promise>, maker: map<RunId, (E, nat)>, closers: set<(E, nat)>,
    returned: set<RunId>, dropped: set<RunId>, closed: map<RunId, nat>, q: (E, nat))
    requires Ledger(fields, opens, maker, closers, returned, dropped, closed)
    requires q in closers && q in opens && opens[q].Settled?
    requires opens[q].answer.Some? ==> opens[q].answer.value in returned && maker[opens[q].answer.value] == q
    ensures Ledger(fields, opens, maker, closers - {q}, returned, dropped,
                   match opens[q].answer case None => closed case Some(r) => closed[r := Get(closed, r, 0) + 1])
  {}

  /** An entry opened again, its run, if it held one, dropped. */
  lemma LedgerDrop<E>(
    fields: map<E, Fields>, opens: map<(E, nat), Promise>, maker: map<RunId, (E, nat)>, closers: set<(E, nat)>,
    returned: set<RunId>, dropped: set<RunId>, closed: map<RunId, nat>, e: E, f: Fields, r: RunId)
    requires Ledger(fields, opens, maker, closers, returned, dropped, closed)
    requires e in fields && Held(fields[e]) && Held(f) && fields[e].promise < f.promise
    requires (e, fields[e].promise) in opens && opens[(e, fields[e].promise)].Holds(r)
    requires r in returned && maker[r] == (e, fields[e].promise)
    requires forall q | q in opens :: q.0 == e ==> q.1 <= fields[e].promise
    ensures Ledger(fields[e := f], opens[(e, f.promise) := Requested], maker, closers, returned, dropped + {r}, closed)
  {}

  // ---- Counts

  lemma CountsTouch<E>(fields: map<E, Fields>, handles: map<nat, Handle<E>>, e: E, f: Fields)
    requires Counts(fields, handles)
    requires e in fields && f.refs == fields[e].refs && f.shown == fields[e].shown
    requires f.closeTimer == fields[e].closeTimer && Held(f) == Held(fields[e])
    ensures Counts(fields[e := f], handles)
  {}

  /** A handle is made or changes: only its own entry's hosts do. */
  lemma HostsStep<E>(handles: map<nat, Handle<E>>, h: nat, x: Handle<E>, y: E)
    requires h in handles ==> handles[h].mine == x.mine
    ensures y != x.mine ==>
              Hosts(handles[h := x], y) == Hosts(handles, y) && ShownHosts(handles[h := x], y) == ShownHosts(handles, y)
    ensures y == x.mine ==>
      && Hosts(handles[h := x], y) == (if x.closed then Hosts(handles, y) - {h} else Hosts(handles, y) + {h})
      && ShownHosts(handles[h := x], y)
         == (if !x.closed && x.shown then ShownHosts(handles, y) + {h} else ShownHosts(handles, y) - {h})
  {}

  function One(b: bool): int { if b then 1 else 0 }

  lemma OneMoreOrLess<T>(s: set<T>, x: T)
    ensures |s + {x}| == |s| + One(x !in s)
    ensures |s - {x}| == |s| - One(x in s)
  {
    if x in s { assert s + {x} == s; } else { assert s - {x} == s; }
  }

  lemma CountedHandle<E>(f: Fields, g: Fields, handles: map<nat, Handle<E>>, h: nat, x: Handle<E>, was: Handle<E>)
    requires Counted(x.mine, f, handles)
    requires if h in handles then was == handles[h] && was.mine == x.mine else was.closed
    requires g.refs == f.refs + One(!x.closed) - One(!was.closed)
    requires g.shown == f.shown + One(!x.closed && x.shown) - One(!was.closed && was.shown)
    requires if Held(g) then g.closeTimer <==> g.refs == 0 else g.refs == 0
    ensures Counted(x.mine, g, handles[h := x])
  {
    HostsStep(handles, h, x, x.mine);
    OneMoreOrLess(Hosts(handles, x.mine), h);
    OneMoreOrLess(ShownHosts(handles, x.mine), h);
  }

  /** A handle of `x.mine` changes, and its entry's counts with it. */
  lemma CountsHandle<E>(fields: map<E, Fields>, handles: map<nat, Handle<E>>, h: nat, x: Handle<E>, f: Fields)
    requires Counts(fields, handles) && x.mine in fields
    requires h in handles ==> handles[h].mine == x.mine
    requires
      var was := if h in handles then handles[h] else Handle(x.mine, true, false);
      && f.refs == fields[x.mine].refs + One(!x.closed) - One(!was.closed)
      && f.shown == fields[x.mine].shown + One(!x.closed && x.shown) - One(!was.closed && was.shown)
    requires if Held(f) then f.closeTimer <==> f.refs == 0 else f.refs == 0
    ensures Counts(fields[x.mine := f], handles[h := x])
  {
    var e := x.mine;
    forall y | y in fields && y != e ensures Counted(y, fields[y], handles[h := x]) {
      HostsStep(handles, h, x, y);
    }
    CountedHandle(fields[e], f, handles, h, x, if h in handles then handles[h] else Handle(e, true, false));
  }

  lemma CountsNew<E>(fields: map<E, Fields>, handles: map<nat, Handle<E>>, h: nat, e: E, f: Fields)
    requires Counts(fields, handles) && e !in fields && h !in handles
    requires f.refs == 1 && f.shown == 1 && Held(f) && !f.closeTimer
    ensures Counts(fields[e := f], handles[h := Handle(e, false, true)])
  {
    var x := Handle(e, false, true);
    forall y | y in fields ensures Counted(y, fields[y], handles[h := x]) {
      HostsStep(handles, h, x, y);
    }
    HostsStep(handles, h, x, e);
    assert Hosts(handles, e) == {} && ShownHosts(handles, e) == {};
  }

  // ---- Opens

  lemma OpensAdd<E>(opens: map<(E, nat), Promise>, q: (E, nat))
    requires q !in opens
    ensures |Unsettled(opens[q := Requested])| == |Unsettled(opens)| + 1
  {
    assert Unsettled(opens[q := Requested]) == Unsettled(opens) + {q};
  }

  lemma OpensMove<E>(opens: map<(E, nat), Promise>, q: (E, nat), x: Promise)
    requires q in opens && !opens[q].Settled?
    ensures |Unsettled(opens[q := x])| == |Unsettled(opens)| - if x.Settled? then 1 else 0
  {
    assert Unsettled(opens[q := x]) == if x.Settled? then Unsettled(opens) - {q} else Unsettled(opens);
  }

  lemma OpensNone<E>(opens: map<(E, nat), Promise>, q: (E, nat))
    requires q in opens && |Unsettled(opens)| == 0
    ensures opens[q].Settled?
  {
    assert q !in Unsettled(opens);
  }

  // ---- What a part of the invariant says of one entry, promise or run

  lemma RosterAt<E>(fields: map<E, Fields>, entries: map<Key, E>, byRunId: map<RunId, E>, e: E)
    requires Roster(fields, entries, byRunId) && e in fields
    ensures forall r | r in byRunId && byRunId[r] == e :: IsLive(fields, entries, e) && fields[e].state.runId == Some(r)
    ensures IsLive(fields, entries, e) && fields[e].state.runId.Some? ==>
              fields[e].state.runId.value in byRunId && byRunId[fields[e].state.runId.value] == e
  {}

  lemma RosterOf<E>(fields: map<E, Fields>, entries: map<Key, E>, byRunId: map<RunId, E>, r: RunId)
    requires Roster(fields, entries, byRunId) && r in byRunId
    ensures IsLive(fields, entries, byRunId[r]) && fields[byRunId[r]].state.runId == Some(r)
  {}

  lemma RosterKey<E>(fields: map<E, Fields>, entries: map<Key, E>, byRunId: map<RunId, E>, k: Key)
    requires Roster(fields, entries, byRunId) && k in entries
    ensures entries[k] in fields && fields[entries[k]].key == k && IsLive(fields, entries, entries[k])
  {}

  lemma RosterClosed<E>(s: Store<E>)
    requires Roster(s.fields, s.entries, s.byRunId)
    ensures s.Closed()
  {}

  lemma PromisesAt<E>(fields: map<E, Fields>, entries: map<Key, E>, opens: map<(E, nat), Promise>, e: E)
    requires Promises(fields, entries, opens) && e in fields
    ensures (e, fields[e].promise) in opens
    ensures fields[e].promise <= fields[e].opening
    ensures IsLive(fields, entries, e) <==> Held(fields[e])
    ensures Held(fields[e]) ==> ShowsAnswer(fields[e], opens[(e, fields[e].promise)])
  {}

  lemma PromisesOf<E>(fields: map<E, Fields>, entries: map<Key, E>, opens: map<(E, nat), Promise>, q: (E, nat))
    requires Promises(fields, entries, opens) && q in opens
    ensures q.0 in fields && q.1 <= fields[q.0].promise
  {}

  lemma MakersAt<E>(
    daemon: map<RunId, nat>, maker: map<RunId, (E, nat)>, returned: set<RunId>, opens: map<(E, nat), Promise>,
    q: (E, nat))
    requires Makers(daemon, maker, returned, opens) && q in opens
    ensures MadeBy(daemon, maker, returned, q, opens[q])
  {}

  lemma MakersOf<E>(
    daemon: map<RunId, nat>, maker: map<RunId, (E, nat)>, returned: set<RunId>, opens: map<(E, nat), Promise>, r: RunId)
    requires Makers(daemon, maker, returned, opens)
    ensures r in daemon <==> r in maker
    ensures r in maker ==> maker[r] in opens
    ensures r in returned ==> r in daemon
  {}

  lemma VersionsAt<E>(
    fields: map<E, Fields>, byRunId: map<RunId, E>, daemon: map<RunId, nat>, returned: set<RunId>, r: RunId)
    requires Versions(fields, byRunId, daemon, returned) && r in byRunId
    ensures r in returned && r in daemon && byRunId[r] in fields && ShowsBetween(fields[byRunId[r]], r, daemon[r])
  {}

  lemma FetchesAt<E>(
    fields: map<E, Fields>, byRunId: map<RunId, E>, daemon: map<RunId, nat>, returned: set<RunId>,
    pending: map<RunId, nat>, fetches: map<nat, Fetch>, g: nat, r: RunId)
    requires Fetches(fields, byRunId, daemon, returned, pending, fetches)
    ensures r in pending ==> r in daemon
    ensures g in fetches && r in fetches[g].wanted ==> Fenced(fields, byRunId, daemon, returned, fetches[g], r)
  {}

  lemma RerunsAt<E>(
    fields: map<E, Fields>, daemon: map<RunId, nat>, opens: map<(E, nat), Promise>, reruns: map<(E, nat), Rerun>,
    q: (E, nat))
    requires Reruns(fields, daemon, opens, reruns) && q in reruns
    ensures RerunFenced(fields, daemon, opens, q, reruns[q])
  {}

  lemma MarksAt<E>(fields: map<E, Fields>, opens: map<(E, nat), Promise>, reruns: map<(E, nat), Rerun>, e: E)
    requires Marks(fields, opens, reruns) && e in fields
    ensures Held(fields[e]) && fields[e].state.stale ==> Unmarking(e, fields[e], opens, reruns)
  {}

  lemma CountsAt<E>(fields: map<E, Fields>, handles: map<nat, Handle<E>>, e: E)
    requires Counts(fields, handles) && e in fields
    ensures fields[e].refs >= 0
    ensures if Held(fields[e]) then fields[e].closeTimer <==> fields[e].refs == 0 else fields[e].refs == 0
  {
    assert Counted(e, fields[e], handles);
  }

  lemma CountsOf<E>(fields: map<E, Fields>, handles: map<nat, Handle<E>>, h: nat)
    requires Counts(fields, handles) && h in handles
    ensures handles[h].mine in fields
    ensures !handles[h].closed ==> fields[handles[h].mine].refs > 0
  {
    if !handles[h].closed {
      assert h in Hosts(handles, handles[h].mine);
      assert Counted(handles[h].mine, fields[handles[h].mine], handles);
    }
  }

  // ---- More of the same, for particular actions

  lemma VersionsNew<E>(
    fields: map<E, Fields>, byRunId: map<RunId, E>, daemon: map<RunId, nat>, returned: set<RunId>, e: E, f: Fields)
    requires Versions(fields, byRunId, daemon, returned) && e !in fields
    ensures Versions(fields[e := f], byRunId, daemon, returned)
  {}

  lemma VersionsRoster<E>(
    fields: map<E, Fields>, byRunId: map<RunId, E>, byRunId': map<RunId, E>, daemon: map<RunId, nat>,
    returned: set<RunId>, e: E, f: Fields)
    requires Versions(fields, byRunId, daemon, returned)
    requires forall r | r in byRunId' :: r in byRunId && byRunId'[r] == byRunId[r] && byRunId'[r] != e
    ensures Versions(fields[e := f], byRunId', daemon, returned)
  {}

  lemma VersionsAdopt<E>(
    fields: map<E, Fields>, byRunId: map<RunId, E>, daemon: map<RunId, nat>, returned: set<RunId>, e: E, f: Fields,
    r: RunId)
    requires Versions(fields, byRunId, daemon, returned)
    requires r in daemon && ShowsBetween(f, r, daemon[r])
    requires forall x | x in byRunId :: byRunId[x] != e
    ensures Versions(fields[e := f], byRunId[r := e], daemon, returned + {r})
  {}

  lemma VersionsReturned<E>(
    fields: map<E, Fields>, byRunId: map<RunId, E>, daemon: map<RunId, nat>, returned: set<RunId>, r: RunId)
    requires Versions(fields, byRunId, daemon, returned)
    ensures Versions(fields, byRunId, daemon, returned + {r})
  {}

  /** A run's version grows, or a run is made. */
  lemma VersionsGrow<E>(
    fields: map<E, Fields>, byRunId: map<RunId, E>, daemon: map<RunId, nat>, returned: set<RunId>, r: RunId, v: nat)
    requires Versions(fields, byRunId, daemon, returned)
    requires r in daemon ==> daemon[r] <= v
    ensures Versions(fields, byRunId, daemon[r := v], returned)
  {}

  lemma FetchesGrow<E>(
    fields: map<E, Fields>, byRunId: map<RunId, E>, daemon: map<RunId, nat>, returned: set<RunId>,
    pending: map<RunId, nat>, fetches: map<nat, Fetch>, r: RunId, v: nat)
    requires Fetches(fields, byRunId, daemon, returned, pending, fetches)
    requires r in daemon ==> daemon[r] <= v
    ensures Fetches(fields, byRunId, daemon[r := v], returned, pending, fetches)
  {
    forall g, x | g in fetches && x in fetches[g].wanted
      ensures Fenced(fields, byRunId, daemon[r := v], returned, fetches[g], x)
    {
      assert Fenced(fields, byRunId, daemon, returned, fetches[g], x);
    }
  }

  lemma FetchesPending<E>(
    fields: map<E, Fields>, byRunId: map<RunId, E>, daemon: map<RunId, nat>, returned: set<RunId>,
    pending: map<RunId, nat>, pending': map<RunId, nat>, fetches: map<nat, Fetch>)
    requires Fetches(fields, byRunId, daemon, returned, pending, fetches)
    requires forall r | r in pending' :: r in daemon
    ensures Fetches(fields, byRunId, daemon, returned, pending', fetches)
  {}

  /** Fetches leave, or ask for less. */
  lemma FetchesFewer<E>(
    fields: map<E, Fields>, byRunId: map<RunId, E>, daemon: map<RunId, nat>, returned: set<RunId>,
    pending: map<RunId, nat>, fetches: map<nat, Fetch>, fetches': map<nat, Fetch>)
    requires Fetches(fields, byRunId, daemon, returned, pending, fetches)
    requires forall g | g in fetches' ::
               g in fetches && fetches'[g] == fetches[g].(wanted := fetches'[g].wanted, newest := fetches'[g].newest)
               && forall r | r in fetches'[g].wanted :: r in fetches[g].wanted
    ensures Fetches(fields, byRunId, daemon, returned, pending, fetches')
  {
    forall g, r | g in fetches' && r in fetches'[g].wanted
      ensures Fenced(fields, byRunId, daemon, returned, fetches'[g], r)
    {
      assert Fenced(fields, byRunId, daemon, returned, fetches[g], r);
    }
  }

  lemma FetchesAdd<E>(
    fields: map<E, Fields>, byRunId: map<RunId, E>, daemon: map<RunId, nat>, returned: set<RunId>,
    pending: map<RunId, nat>, fetches: map<nat, Fetch>, g: nat, x: Fetch)
    requires Fetches(fields, byRunId, daemon, returned, pending, fetches)
    requires forall r | r in x.wanted :: Fenced(fields, byRunId, daemon, returned, x, r)
    ensures Fetches(fields, byRunId, daemon, returned, pending, fetches[g := x])
  {
    var after := fetches[g := x];
    forall h, r | h in after && r in after[h].wanted
      ensures Fenced(fields, byRunId, daemon, returned, after[h], r)
    {
      if h != g { assert Fenced(fields, byRunId, daemon, returned, fetches[h], r); }
    }
  }

  lemma RerunsAdd<E>(
    fields: map<E, Fields>, daemon: map<RunId, nat>, opens: map<(E, nat), Promise>, reruns: map<(E, nat), Rerun>,
    q: (E, nat), x: Rerun)
    requires Reruns(fields, daemon, opens, reruns)
    requires RerunFenced(fields, daemon, opens, q, x)
    ensures Reruns(fields, daemon, opens, reruns[q := x])
  {}

  lemma RerunsRemove<E>(
    fields: map<E, Fields>, daemon: map<RunId, nat>, opens: map<(E, nat), Promise>, reruns: map<(E, nat), Rerun>,
    q: (E, nat))
    requires Reruns(fields, daemon, opens, reruns)
    ensures Reruns(fields, daemon, opens, reruns - {q})
  {}

  lemma MakersRequested<E>(
    daemon: map<RunId, nat>, maker: map<RunId, (E, nat)>, returned: set<RunId>, opens: map<(E, nat), Promise>,
    q: (E, nat))
    requires Makers(daemon, maker, returned, opens) && q !in opens
    ensures Makers(daemon, maker, returned, opens[q := Requested])
  {}

  lemma MakersMade<E>(
    daemon: map<RunId, nat>, maker: map<RunId, (E, nat)>, returned: set<RunId>, opens: map<(E, nat), Promise>,
    q: (E, nat), r: RunId, v: nat)
    requires Makers(daemon, maker, returned, opens) && q in opens && opens[q].Requested? && r !in daemon
    ensures Makers(daemon[r := v], maker[r := q], returned, opens[q := Created(r, v)])
  {
    forall x | x in opens && x != q ensures MadeBy(daemon[r := v], maker[r := q], returned, x, opens[x]) {
      assert MadeBy(daemon, maker, returned, x, opens[x]);
    }
  }

  lemma MakersGrow<E>(
    daemon: map<RunId, nat>, maker: map<RunId, (E, nat)>, returned: set<RunId>, opens: map<(E, nat), Promise>,
    r: RunId, v: nat)
    requires Makers(daemon, maker, returned, opens) && r in daemon && daemon[r] <= v
    ensures Makers(daemon[r := v], maker, returned, opens)
  {
    forall x | x in opens ensures MadeBy(daemon[r := v], maker, returned, x, opens[x]) {
      assert MadeBy(daemon, maker, returned, x, opens[x]);
    }
  }

  lemma MakersReturn<E>(
    daemon: map<RunId, nat>, maker: map<RunId, (E, nat)>, returned: set<RunId>, opens: map<(E, nat), Promise>,
    q: (E, nat), answer: Option<RunId>)
    requires Makers(daemon, maker, returned, opens) && q in opens && opens[q].Created?
    requires answer == None || answer == Some(opens[q].run)
    ensures Makers(daemon, maker, returned + {opens[q].run}, opens[q := Replied(answer)])
  {
    assert MadeBy(daemon, maker, returned, q, opens[q]);
    forall x | x in opens && x != q ensures MadeBy(daemon, maker, returned + {opens[q].run}, x, opens[x]) {
      assert MadeBy(daemon, maker, returned, x, opens[x]);
    }
  }

  /** A promise fails, or its `finally` runs. */
  lemma MakersMove<E>(
    daemon: map<RunId, nat>, maker: map<RunId, (E, nat)>, returned: set<RunId>, opens: map<(E, nat), Promise>,
    q: (E, nat), x: Promise)
    requires Makers(daemon, maker, returned, opens) && q in opens
    requires x == Replied(None) || (opens[q].Replied? && x == Settled(opens[q].answer))
    ensures Makers(daemon, maker, returned, opens[q := x])
  {
    assert MadeBy(daemon, maker, returned, q, opens[q]);
  }

  lemma LedgerMade<E>(
    fields: map<E, Fields>, opens: map<(E, nat), Promise>, maker: map<RunId, (E, nat)>, closers: set<(E, nat)>,
    returned: set<RunId>, dropped: set<RunId>, closed: map<RunId, nat>, q: (E, nat), r: RunId)
    requires Ledger(fields, opens, maker, closers, returned, dropped, closed)
    requires r !in returned
    ensures Ledger(fields, opens, maker[r := q], closers, returned, dropped, closed)
  {}

  lemma EarlyOpens<E>(
    opens: map<(E, nat), Promise>, daemon: map<RunId, nat>, announced: map<RunId, nat>,
    earlyChanges: map<RunId, nat>, earlyOverflow: bool, q: (E, nat), x: Promise)
    requires Early(opens, daemon, announced, earlyChanges, earlyOverflow)
    requires x.Created? ==> x.run !in announced
    ensures Early(opens[q := x], daemon, announced, earlyChanges, earlyOverflow)
  {}

  /** A run's version grows, or a run is made. */
  lemma EarlyGrow<E>(
    opens: map<(E, nat), Promise>, daemon: map<RunId, nat>, announced: map<RunId, nat>,
    earlyChanges: map<RunId, nat>, earlyOverflow: bool, r: RunId, v: nat)
    requires Early(opens, daemon, announced, earlyChanges, earlyOverflow)
    requires r in daemon ==> daemon[r] <= v
    ensures Early(opens, daemon[r := v], announced, earlyChanges, earlyOverflow)
    ensures r !in daemon ==> r !in announced
  {}

  lemma EarlyReturn<E>(
    opens: map<(E, nat), Promise>, daemon: map<RunId, nat>, announced: map<RunId, nat>,
    earlyChanges: map<RunId, nat>, earlyOverflow: bool, q: (E, nat), x: Promise, r: RunId)
    requires Early(opens, daemon, announced, earlyChanges, earlyOverflow)
    requires q in opens && x.Replied?
    requires forall y | y in opens && y != q && opens[y].Created? :: opens[y].run != r
    ensures Early(opens[q := x], daemon, announced, earlyChanges - {r}, earlyOverflow)
  {}

  lemma EarlyAt<E>(
    opens: map<(E, nat), Promise>, daemon: map<RunId, nat>, announced: map<RunId, nat>,
    earlyChanges: map<RunId, nat>, earlyOverflow: bool, q: (E, nat))
    requires Early(opens, daemon, announced, earlyChanges, earlyOverflow)
    ensures q in opens && opens[q].Created? && opens[q].run in announced ==>
              opens[q].run in earlyChanges || earlyOverflow
  {}

  lemma EarlyAnnounced<E>(
    opens: map<(E, nat), Promise>, daemon: map<RunId, nat>, announced: map<RunId, nat>,
    earlyChanges: map<RunId, nat>, earlyOverflow: bool, r: RunId)
    requires Early(opens, daemon, announced, earlyChanges, earlyOverflow)
    ensures r in announced ==> r in daemon && announced[r] <= daemon[r]
  {}

  lemma EarlyRaise<E>(
    opens: map<(E, nat), Promise>, daemon: map<RunId, nat>, announced: map<RunId, nat>,
    earlyChanges: map<RunId, nat>, earlyOverflow: bool,
    r: RunId, n: nat, earlyChanges': map<RunId, nat>, earlyOverflow': bool)
    requires Early(opens, daemon, announced, earlyChanges, earlyOverflow) && r in daemon && n <= daemon[r]
    requires earlyChanges.Keys <= earlyChanges'.Keys && (earlyOverflow ==> earlyOverflow')
    requires forall q | q in opens && opens[q].Created? && opens[q].run == r :: r in earlyChanges' || earlyOverflow'
    ensures Early(opens, daemon, announced[r := n], earlyChanges', earlyOverflow')
  {}

  lemma EarlySettled<E>(
    opens: map<(E, nat), Promise>, daemon: map<RunId, nat>, announced: map<RunId, nat>,
    earlyChanges: map<RunId, nat>, earlyOverflow: bool)
    requires Early(opens, daemon, announced, earlyChanges, earlyOverflow)
    requires forall q | q in opens :: opens[q].Settled?
    ensures Early(opens, daemon, announced, map[], false)
  {}

  lemma DebtsAdopt<E>(
    fields: map<E, Fields>, byRunId: map<RunId, E>, pending: map<RunId, nat>, pending': map<RunId, nat>,
    missed: set<RunId>,
    fetches: map<nat, Fetch>, announced: map<RunId, nat>, e: E, f: Fields, r: RunId)
    requires Debts(fields, byRunId, pending, missed, fetches, announced)
    requires e in fields && forall x | x in byRunId :: byRunId[x] != e
    requires pending.Keys <= pending'.Keys
    requires r in announced ==> r in pending'
    ensures Debts(fields[e := f], byRunId[r := e], pending', missed, fetches, announced)
  {}

  lemma DebtsAnnounced<E>(
    fields: map<E, Fields>, byRunId: map<RunId, E>, pending: map<RunId, nat>, pending': map<RunId, nat>,
    missed: set<RunId>,
    fetches: map<nat, Fetch>, announced: map<RunId, nat>, r: RunId, n: nat)
    requires Debts(fields, byRunId, pending, missed, fetches, announced)
    requires pending.Keys <= pending'.Keys
    requires r in byRunId && byRunId[r] in fields ==> n <= fields[byRunId[r]].seqNo || r in pending'
    requires r in byRunId ==> byRunId[r] in fields
    ensures Debts(fields, byRunId, pending', missed, fetches, announced[r := Max(n, Get(announced, r, 0))])
  {}

  /** A flush takes up all that is pending. */
  lemma DebtsFlush<E>(
    fields: map<E, Fields>, byRunId: map<RunId, E>, pending: map<RunId, nat>, missed: set<RunId>,
    fetches: map<nat, Fetch>, announced: map<RunId, nat>, g: nat, x: Fetch)
    requires Debts(fields, byRunId, pending, missed, fetches, announced)
    requires g !in fetches
    requires forall r | r in pending :: r in x.wanted && r in x.newest && r in x.low && Get(announced, r, 0) <= x.low[r]
    ensures Debts(fields, byRunId, map[], missed - pending.Keys, Overtaken(fetches, pending.Keys)[g := x], announced)
  {
    var after := Overtaken(fetches, pending.Keys)[g := x];
    forall r | r in byRunId
      ensures
        || (byRunId[r] in fields && Get(announced, r, 0) <= fields[byRunId[r]].seqNo)
        || r in missed - pending.Keys
        || exists h | h in after :: Carries(after[h], r, Get(announced, r, 0))
    {
      if r in pending {
        assert Carries(after[g], r, Get(announced, r, 0));
      } else if h :| h in fetches && Carries(fetches[h], r, Get(announced, r, 0)) {
        assert Carries(after[h], r, Get(announced, r, 0));
      }
    }
  }

  /** A fetch fails. */
  lemma DebtsFailed<E>(
    fields: map<E, Fields>, byRunId: map<RunId, E>, pending: map<RunId, nat>, missed: set<RunId>,
    fetches: map<nat, Fetch>, announced: map<RunId, nat>, g: nat)
    requires Debts(fields, byRunId, pending, missed, fetches, announced)
    requires g in fetches
    ensures Debts(fields, byRunId, pending, missed + (set r | r in fetches[g].wanted && r in fetches[g].newest),
                  fetches - {g}, announced)
  {
    var after := fetches - {g};
    var missed' := missed + set r | r in fetches[g].wanted && r in fetches[g].newest;
    forall r | r in byRunId
      ensures
        || (byRunId[r] in fields && Get(announced, r, 0) <= fields[byRunId[r]].seqNo)
        || r in pending
        || r in missed'
        || exists h | h in after :: Carries(after[h], r, Get(announced, r, 0))
    {
      if h :| h in fetches && Carries(fetches[h], r, Get(announced, r, 0)) {
        if h != g { assert Carries(after[h], r, Get(announced, r, 0)); }
      }
    }
  }

  lemma CountsLetGo<E>(fields: map<E, Fields>, handles: map<nat, Handle<E>>, e: E, f: Fields)
    requires Counts(fields, handles)
    requires e in fields && f.refs == fields[e].refs == 0 && f.shown == fields[e].shown && !Held(f)
    ensures Counts(fields[e := f], handles)
  {}

  /** Fetch `g` has dealt with `r`. */
  lemma DebtsTaken<E>(
    fields: map<E, Fields>, byRunId: map<RunId, E>, pending: map<RunId, nat>, missed: set<RunId>,
    fetches: map<nat, Fetch>, announced: map<RunId, nat>, g: nat, r: RunId)
    requires Debts(fields, byRunId, pending, missed, fetches, announced)
    requires g in fetches && fetches[g].wanted != [] && fetches[g].wanted[0] == r
    requires r in byRunId ==> byRunId[r] in fields
    requires r in byRunId && r in fetches[g].newest && r in fetches[g].low ==>
               fetches[g].low[r] <= fields[byRunId[r]].seqNo || r in pending || r in missed
    ensures Debts(fields, byRunId, pending, missed, fetches[g := fetches[g].(wanted := fetches[g].wanted[1..])],
                  announced)
  {
    var after := fetches[g := fetches[g].(wanted := fetches[g].wanted[1..])];
    forall x | x in byRunId
      ensures
        || (byRunId[x] in fields && Get(announced, x, 0) <= fields[byRunId[x]].seqNo)
        || x in pending
        || x in missed
        || exists h | h in after :: Carries(after[h], x, Get(announced, x, 0))
    {
      if h :| h in fetches && Carries(fetches[h], x, Get(announced, x, 0)) {
        if h != g || x != r { assert Carries(after[h], x, Get(announced, x, 0)); }
      }
    }
  }

  lemma DebtsMissed<E>(
    fields: map<E, Fields>, byRunId: map<RunId, E>, pending: map<RunId, nat>, missed: set<RunId>, missed': set<RunId>,
    fetches: map<nat, Fetch>, announced: map<RunId, nat>)
    requires Debts(fields, byRunId, pending, missed, fetches, announced)
    requires missed <= missed'
    ensures Debts(fields, byRunId, pending, missed', fetches, announced)
  {}

  // ---- Every live entry opened again at once

  lemma SameLives<E>(fields: map<E, Fields>, entries: map<Key, E>)
    ensures forall e :: IsLive(AllReopened(fields, entries), entries, e) == IsLive(fields, entries, e)
  {}

  lemma RosterReconnect<E>(fields: map<E, Fields>, entries: map<Key, E>, byRunId: map<RunId, E>)
    requires Roster(fields, entries, byRunId)
    ensures Roster(AllReopened(fields, entries), entries, map[])
  {
    SameLives(fields, entries);
  }

  lemma UnsettledRequests<E>(opens: map<(E, nat), Promise>, made: map<(E, nat), Promise>)
    requires made.Keys !! opens.Keys && forall q | q in made :: made[q] == Requested
    ensures |Unsettled(opens + made)| == |Unsettled(opens)| + |made.Keys|
  {
    assert Unsettled(opens + made) == Unsettled(opens) + made.Keys;
  }

  lemma RequestsAreNew<E>(fields: map<E, Fields>, entries: map<Key, E>, opens: map<(E, nat), Promise>)
    requires Promises(fields, entries, opens)
    ensures Requests(fields, entries).Keys !! opens.Keys
  {
    hide Promises;
    forall q | q in Requests(fields, entries) ensures q !in opens {
      if q in opens { PromisesOf(fields, entries, opens, q); PromisesAt(fields, entries, opens, q.0); }
    }
  }

  /** As many requests as keys. */
  lemma {:induction false} OnePerKey<E>(fields: map<E, Fields>, entries: map<Key, E>, keys: set<Key>)
    requires keys <= entries.Keys
    requires forall k | k in entries :: entries[k] in fields && fields[entries[k]].key == k
    ensures |set k | k in keys :: (entries[k], fields[entries[k]].opening + 1)| == |keys|
  {
    if k :| k in keys {
      OnePerKey(fields, entries, keys - {k});
      var rest := set x | x in keys - {k} :: (entries[x], fields[entries[x]].opening + 1);
      var one := (entries[k], fields[entries[k]].opening + 1);
      assert one !in rest;
      assert (set x | x in keys :: (entries[x], fields[entries[x]].opening + 1)) == rest + {one};
    }
  }

  lemma RequestsPerEntry<E>(fields: map<E, Fields>, entries: map<Key, E>, byRunId: map<RunId, E>)
    requires Roster(fields, entries, byRunId)
    ensures |Requests(fields, entries).Keys| == |entries|
  {
    OnePerKey(fields, entries, entries.Keys);
    var asked := set k | k in entries.Keys :: (entries[k], fields[entries[k]].opening + 1);
    forall q | q in asked ensures q in Requests(fields, entries) {
      var k :| k in entries.Keys && q == (entries[k], fields[entries[k]].opening + 1);
    }
    forall q | q in Requests(fields, entries) ensures q in asked {
      assert fields[q.0].key in entries.Keys;
    }
    assert Requests(fields, entries).Keys == asked;
  }

  lemma OpensReconnect<E>(
    fields: map<E, Fields>, entries: map<Key, E>, byRunId: map<RunId, E>, opens: map<(E, nat), Promise>,
    inFlightOpens: int, earlyChanges: map<RunId, nat>, earlyOverflow: bool, inFlightOpens': int)
    requires Roster(fields, entries, byRunId) && Promises(fields, entries, opens)
    requires Opens(opens, inFlightOpens, earlyChanges, earlyOverflow)
    requires inFlightOpens' == inFlightOpens + |entries|
    ensures Opens(opens + Requests(fields, entries), inFlightOpens', earlyChanges, earlyOverflow)
  {
    hide Roster, Promises;
    var made := Requests(fields, entries);
    RequestsAreNew(fields, entries, opens);
    RequestsPerEntry(fields, entries, byRunId);
    UnsettledRequests(opens, made);
  }

  lemma PromisesReconnect<E>(fields: map<E, Fields>, entries: map<Key, E>, opens: map<(E, nat), Promise>)
    requires Promises(fields, entries, opens)
    ensures Promises(AllReopened(fields, entries), entries, opens + Requests(fields, entries))
  {
    SameLives(fields, entries);
    var fields' := AllReopened(fields, entries);
    var opens' := opens + Requests(fields, entries);
    forall e | e in fields'
      ensures (e, fields'[e].promise) in opens' && fields'[e].promise <= fields'[e].opening
      ensures IsLive(fields', entries, e) <==> Held(fields'[e])
      ensures Held(fields'[e]) ==> ShowsAnswer(fields'[e], opens'[(e, fields'[e].promise)])
    {
      PromisesAt(fields, entries, opens, e);
      if IsLive(fields, entries, e) {
        assert (e, fields[e].opening + 1) in Requests(fields, entries);
      }
    }
  }

  lemma MakersReconnect<E>(
    fields: map<E, Fields>, entries: map<Key, E>,
    daemon: map<RunId, nat>, maker: map<RunId, (E, nat)>, returned: set<RunId>, opens: map<(E, nat), Promise>)
    requires Makers(daemon, maker, returned, opens)
    ensures Makers(daemon, maker, returned, opens + Requests(fields, entries))
  {
    var opens' := opens + Requests(fields, entries);
    forall q | q in opens' ensures MadeBy(daemon, maker, returned, q, opens'[q]) {
      if q in opens { assert MadeBy(daemon, maker, returned, q, opens[q]); }
    }
  }

  lemma LedgerAt<E>(
    fields: map<E, Fields>, opens: map<(E, nat), Promise>, maker: map<RunId, (E, nat)>, closers: set<(E, nat)>,
    returned: set<RunId>, dropped: set<RunId>, closed: map<RunId, nat>)
    requires Ledger(fields, opens, maker, closers, returned, dropped, closed)
    ensures closed.Keys <= returned && dropped <= returned
    ensures forall q | q in closers :: q.0 in fields && !Held(fields[q.0]) && q.1 == fields[q.0].promise
  {}

  lemma LedgerFrom<E>(
    fields: map<E, Fields>, opens: map<(E, nat), Promise>, maker: map<RunId, (E, nat)>, closers: set<(E, nat)>,
    returned: set<RunId>, dropped: set<RunId>, closed: map<RunId, nat>)
    requires forall r | r in returned ::
          && r in maker && maker[r] in opens && maker[r].0 in fields
          && Accounted(r, maker[r], fields[maker[r].0], opens[maker[r]], maker[r] in closers, r in dropped,
                       Get(closed, r, 0))
    requires closed.Keys <= returned && dropped <= returned
    requires forall q | q in closers :: q.0 in fields && !Held(fields[q.0]) && q.1 == fields[q.0].promise
    ensures Ledger(fields, opens, maker, closers, returned, dropped, closed)
  {}

  lemma LedgerOf<E>(
    fields: map<E, Fields>, opens: map<(E, nat), Promise>, maker: map<RunId, (E, nat)>, closers: set<(E, nat)>,
    returned: set<RunId>, dropped: set<RunId>, closed: map<RunId, nat>, r: RunId)
    requires Ledger(fields, opens, maker, closers, returned, dropped, closed) && r in returned
    ensures r in maker && maker[r] in opens && maker[r].0 in fields
    ensures Accounted(r, maker[r], fields[maker[r].0], opens[maker[r]], maker[r] in closers, r in dropped,
                      Get(closed, r, 0))
  {}

  lemma LedgerReconnectAt<E>(
    fields: map<E, Fields>, entries: map<Key, E>, byRunId: map<RunId, E>,
    daemon: map<RunId, nat>, opens: map<(E, nat), Promise>, maker: map<RunId, (E, nat)>, closers: set<(E, nat)>,
    returned: set<RunId>, dropped: set<RunId>, closed: map<RunId, nat>, r: RunId)
    requires Roster(fields, entries, byRunId) && Promises(fields, entries, opens)
        && Makers(daemon, maker, returned, opens)
    requires Ledger(fields, opens, maker, closers, returned, dropped, closed) && r in returned
    ensures var fields', opens' := AllReopened(fields, entries), opens + Requests(fields, entries);
      && r in maker && maker[r] in opens' && maker[r].0 in fields'
      && Accounted(r, maker[r], fields'[maker[r].0], opens'[maker[r]], maker[r] in closers,
                   r in dropped + byRunId.Keys, Get(closed, r, 0))
  {
    hide Roster, Promises, Makers, Ledger;
    LedgerOf(fields, opens, maker, closers, returned, dropped, closed, r);
    var q := maker[r];
    PromisesOf(fields, entries, opens, q);
    PromisesAt(fields, entries, opens, q.0);
    RosterAt(fields, entries, byRunId, q.0);
    MakersAt(daemon, maker, returned, opens, q);
    LedgerAt(fields, opens, maker, closers, returned, dropped, closed);
    assert (opens + Requests(fields, entries))[q] == opens[q];
    if r in byRunId {
      var e := byRunId[r];
      RosterOf(fields, entries, byRunId, r);
      PromisesAt(fields, entries, opens, e);
      MakersAt(daemon, maker, returned, opens, (e, fields[e].promise));
    }
  }

  /** All the runs held are dropped. */
  lemma LedgerReconnect<E>(
    fields: map<E, Fields>, entries: map<Key, E>, byRunId: map<RunId, E>,
    daemon: map<RunId, nat>, opens: map<(E, nat), Promise>, maker: map<RunId, (E, nat)>, closers: set<(E, nat)>,
    returned: set<RunId>, dropped: set<RunId>, closed: map<RunId, nat>)
    requires Roster(fields, entries, byRunId) && Promises(fields, entries, opens)
        && Makers(daemon, maker, returned, opens)
    requires Ledger(fields, opens, maker, closers, returned, dropped, closed)
    requires byRunId.Keys <= returned
    ensures Ledger(AllReopened(fields, entries), opens + Requests(fields, entries), maker, closers, returned,
                   dropped + byRunId.Keys, closed)
  {
    hide Roster, Promises, Makers, Ledger;
    var fields' := AllReopened(fields, entries);
    var opens' := opens + Requests(fields, entries);
    forall r | r in returned
      ensures r in maker && maker[r] in opens' && maker[r].0 in fields'
      ensures Accounted(r, maker[r], fields'[maker[r].0], opens'[maker[r]], maker[r] in closers,
                        r in dropped + byRunId.Keys, Get(closed, r, 0))
    {
      LedgerReconnectAt(fields, entries, byRunId, daemon, opens, maker, closers, returned, dropped, closed, r);
    }
    LedgerAt(fields, opens, maker, closers, returned, dropped, closed);
    forall q | q in closers ensures q.0 in fields' && !Held(fields'[q.0]) && q.1 == fields'[q.0].promise {
      PromisesAt(fields, entries, opens, q.0);
    }
    LedgerFrom(fields', opens', maker, closers, returned, dropped + byRunId.Keys, closed);
  }

  lemma RerunsReconnect<E>(
    fields: map<E, Fields>, entries: map<Key, E>, daemon: map<RunId, nat>, opens: map<(E, nat), Promise>,
    reruns: map<(E, nat), Rerun>)
    requires Reruns(fields, daemon, opens, reruns)
    ensures Reruns(AllReopened(fields, entries), daemon, opens + Requests(fields, entries), reruns)
  {
    var fields' := AllReopened(fields, entries);
    var opens' := opens + Requests(fields, entries);
    forall q | q in reruns ensures RerunFenced(fields', daemon, opens', q, reruns[q]) {
      assert RerunFenced(fields, daemon, opens, q, reruns[q]);
    }
  }

  lemma MarksReconnect<E>(
    fields: map<E, Fields>, entries: map<Key, E>, opens: map<(E, nat), Promise>, reruns: map<(E, nat), Rerun>)
    requires Marks(fields, opens, reruns) && Promises(fields, entries, opens)
    ensures Marks(AllReopened(fields, entries), opens + Requests(fields, entries), reruns)
  {
    var fields' := AllReopened(fields, entries);
    var opens' := opens + Requests(fields, entries);
    forall e | e in fields' && Held(fields'[e]) && fields'[e].state.stale
        ensures Unmarking(e, fields'[e], opens', reruns) {
      PromisesAt(fields, entries, opens, e);
      assert (e, fields[e].opening + 1) in Requests(fields, entries);
    }
  }

  lemma EarlyReconnect<E>(
    fields: map<E, Fields>, entries: map<Key, E>,
    opens: map<(E, nat), Promise>, daemon: map<RunId, nat>, announced: map<RunId, nat>,
    earlyChanges: map<RunId, nat>, earlyOverflow: bool)
    requires Early(opens, daemon, announced, earlyChanges, earlyOverflow)
    ensures Early(opens + Requests(fields, entries), daemon, announced, earlyChanges, earlyOverflow)
  {}

  lemma CountsReconnect<E>(
    fields: map<E, Fields>, entries: map<Key, E>, handles: map<nat, Handle<E>>, opens: map<(E, nat), Promise>)
    requires Counts(fields, handles) && Promises(fields, entries, opens)
    ensures Counts(AllReopened(fields, entries), handles)
  {
    var fields' := AllReopened(fields, entries);
    forall e | e in fields' ensures Counted(e, fields'[e], handles) {
      PromisesAt(fields, entries, opens, e);
      assert Counted(e, fields[e], handles);
    }
  }
}
