/**
 The wiki titles kept for links (apps/desktop/src/wikiTitleCache.ts): one read at a
 time, and another after it when a change came meanwhile.
 */
module TitleCache {
  import opened Basics

  datatype Page = Page(slug: string, title: string)

  type Titles = map<string, string>

  predicate Counts(p: Page) { p.slug != "" && p.title != "" }

  /** The titles of the pages with a slug and a title, a later page over an earlier. */
  function TitlesOf(pages: seq<Page>): Titles {
    if pages == [] then map[]
    else
      var before, p := TitlesOf(pages[..|pages| - 1]), pages[|pages| - 1];
      if Counts(p) then before[p.slug := p.title] else before
  }

  /** The cache's variables. */
  datatype Cache = Cache(titles: Titles, loaded: bool, reading: bool, stale: bool) {
    /** A read starts, or the one out is to be followed by another. */
    function Refresh(): (c: Cache)
      ensures c.reading
    {
      if reading then this.(stale := true) else this.(stale := false, reading := true)
    }

    /** The read is over; `pages` is what it brought, if it did. */
    function Ended(pages: Option<seq<Page>>): Cache {
      var c := if pages.None? then this else this.(titles := TitlesOf(pages.value), loaded := true);
      var idle := c.(reading := false);
      if stale then idle.Refresh() else idle
    }
  }

  class TitleCache {
    var titles: Titles
    var loaded: bool
    var reading: bool
    var stale: bool

    ghost function View(): Cache
      reads this
    {
      Cache(titles, loaded, reading, stale)
    }

    constructor ()
      ensures View() == Cache(map[], false, false, false)
    {
      titles, loaded, reading, stale := map[], false, false, false;
    }

    /** `starts` is whether a read is sent now. */
    method Refresh() returns (starts: bool)
      modifies this
      ensures View() == old(View()).Refresh() && starts == !old(reading)
    {
      if reading {
        stale := true;
        return false;
      }
      stale, reading := false, true;
      return true;
    }

    method Ended(pages: Option<seq<Page>>) returns (starts: bool)
      modifies this
      ensures View() == old(View()).Ended(pages) && starts == old(stale)
    {
      if pages.Some? {
        var list, next: Titles := pages.value, map[];
        for i := 0 to |list|
          invariant next == TitlesOf(list[..i])
        {
          assert list[..i + 1][..i] == list[..i];
          if list[i].slug != "" && list[i].title != "" { next := next[list[i].slug := list[i].title]; }
        }
        assert list[..|list|] == list;
        titles, loaded := next, true;
      }
      reading := false;
      if stale { starts := Refresh(); } else { starts := false; }
    }
  }

  // ---- Every history of the cache

  /**
   `saved` are the page lists there have been, newest last; a read brings one of
   those from its start on. `asked` and `started` are which was newest at the latest
   refresh and at the latest read's start, `shown` which the titles are of; `asks` and
   `begun` are how many refreshes were asked for and how many reads started.
   */
  datatype World = World(cache: Cache, saved: seq<seq<Page>>, asked: Option<nat>, started: Option<nat>,
                         shown: Option<nat>, succeeded: bool, asks: nat, begun: nat)

  datatype Action = Saved(pages: seq<Page>) | Asked | Answered(which: nat) | Failed

  predicate Can(w: World, a: Action) {
    match a
    case Answered(which) => w.cache.reading && w.started.Some? && w.started.value <= which < |w.saved|
    case Failed => w.cache.reading
    case _ => true
  }

  function Step(w: World, a: Action): World
    requires Can(w, a) && w.saved != []
  {
    var now := |w.saved| - 1;
    match a
    case Saved(pages) => w.(saved := w.saved + [pages])
    case Asked =>
      w.(cache := w.cache.Refresh(), asked := Some(now), started := if w.cache.reading then w.started else Some(now),
         asks := w.asks + 1, begun := if w.cache.reading then w.begun else w.begun + 1)
    case Answered(which) =>
      w.(cache := w.cache.Ended(Some(w.saved[which])), shown := Some(which), succeeded := true,
         started := if w.cache.stale then Some(now) else w.started,
         begun := if w.cache.stale then w.begun + 1 else w.begun)
    case Failed =>
      w.(cache := w.cache.Ended(None), succeeded := false, started := if w.cache.stale then Some(now) else w.started,
         begun := if w.cache.stale then w.begun + 1 else w.begun)
  }

  ghost predicate Inv(w: World) {
    && w.saved != [] && (w.started.None? <==> w.asked.None?)
    && (w.asked.None? ==> !w.cache.reading && !w.cache.stale && w.shown.None?)
    && (w.asked.Some? ==> w.started.value < |w.saved| && w.asked.value < |w.saved|)
    && (w.asked.Some? && w.started.value < w.asked.value ==> w.cache.reading && w.cache.stale)
    && (w.cache.stale ==> w.cache.reading)
    && w.begun + (if w.cache.stale then 1 else 0) <= w.asks
    && (w.cache.loaded <==> w.shown.Some?)
    && (w.shown.Some? ==> w.shown.value < |w.saved| && w.cache.titles == TitlesOf(w.saved[w.shown.value]))
    && (w.shown.None? ==> w.cache.titles == map[])
    && (w.asked.Some? && !w.cache.reading && w.succeeded ==> w.shown.Some? && w.started.value <= w.shown.value)
  }

  lemma StepKeeps(w: World, a: Action)
    requires Inv(w) && Can(w, a)
    ensures Inv(Step(w, a))
  {
    hide TitlesOf;
  }

  ghost predicate Moves(w: World, a: Action, w': World) { w.saved != [] && Can(w, a) && w' == Step(w, a) }

  ghost predicate IsRun(run: seq<World>, actions: seq<Action>) {
    && |run| == |actions| + 1 && run[0].saved != []
    && run[0] == World(Cache(map[], false, false, false), run[0].saved, None, None, None, false, 0, 0)
    && forall i | 0 <= i < |actions| :: Moves(run[i], actions[i], run[i + 1])
  }

  lemma {:induction false} RunKeeps(run: seq<World>, actions: seq<Action>, i: nat)
    requires IsRun(run, actions) && i <= |actions|
    ensures Inv(run[i])
  {
    if i > 0 {
      RunKeeps(run, actions, i - 1);
      assert Moves(run[i - 1], actions[i - 1], run[i - 1 + 1]);
      StepKeeps(run[i - 1], actions[i - 1]);
    }
  }

  /** In every run: whenever no read is out, the last one started at or after the
      latest refresh asked for, and if it succeeded the titles are of a page list no
      older than that; while one is out that started before, another will follow. */
  lemma NoRefreshIsLost(run: seq<World>, actions: seq<Action>, i: nat)
    requires IsRun(run, actions) && i <= |actions| && run[i].asked.Some?
    ensures var w := run[i];
            && w.started.Some?
            && (!w.cache.reading ==> w.asked.value <= w.started.value)
            && (w.started.value < w.asked.value ==> w.cache.reading && w.cache.stale)
            && (!w.cache.reading && w.succeeded ==>
                  w.shown.Some? && w.asked.value <= w.shown.value < |w.saved|
                  && w.cache.titles == TitlesOf(w.saved[w.shown.value]))
  {
    RunKeeps(run, actions, i);
  }

  /** No read starts that no refresh asked for. */
  lemma NoNeedlessRead(run: seq<World>, actions: seq<Action>, i: nat)
    requires IsRun(run, actions) && i <= |actions|
    ensures run[i].begun <= run[i].asks
    ensures run[i].cache.stale ==> run[i].begun < run[i].asks
  {
    RunKeeps(run, actions, i);
  }

  /** The titles always are those of the page list the last successful read brought. */
  lemma TitlesAreOfLastRead(run: seq<World>, actions: seq<Action>, i: nat, j: nat)
    requires IsRun(run, actions) && i < j <= |actions| && actions[i].Answered?
    requires forall k | i < k < j :: !actions[k].Answered?
    ensures actions[i].which < |run[i].saved| && run[j].cache.titles == TitlesOf(run[i].saved[actions[i].which])
    decreases j
  {
    RunKeeps(run, actions, j - 1);
    assert Moves(run[j - 1], actions[j - 1], run[j - 1 + 1]);
    if i < j - 1 { TitlesAreOfLastRead(run, actions, i, j - 1); }
  }

  /** The page gives its slug a title: neither is empty. */
  predicate Gives(p: Page, slug: string) { p.slug == slug && |slug| > 0 && |p.title| > 0 }

  /** A slug has the title of the last page that gives it one. */
  lemma {:induction false} TitleIsTheLast(pages: seq<Page>, slug: string)
    ensures slug in TitlesOf(pages) <==> exists i :: 0 <= i < |pages| && Gives(pages[i], slug)
    ensures slug in TitlesOf(pages) ==>
              exists i :: 0 <= i < |pages| && Gives(pages[i], slug) && TitlesOf(pages)[slug] == pages[i].title
                          && forall j | i < j < |pages| :: !Gives(pages[j], slug)
  {
    if pages != [] {
      var n := |pages| - 1;
      var before := pages[..n];
      TitleIsTheLast(before, slug);
      if !Gives(pages[n], slug) {
        assert forall i | 0 <= i < n :: before[i] == pages[i];
        if slug in TitlesOf(before) {
          var i :| 0 <= i < n && Gives(before[i], slug) && TitlesOf(before)[slug] == before[i].title
                   && forall j | i < j < n :: !Gives(before[j], slug);
          assert Gives(pages[i], slug);
        }
      }
    }
  }
}
