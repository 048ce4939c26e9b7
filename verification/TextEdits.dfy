/**
 LSP text edits applied to a plain string: positions resolved to offsets, and
 the edits applied from the last to the first.
 */
module TextEdits {
  import opened Basics

  datatype Position = Position(line: nat, character: nat)

  datatype Range = Range(start: Position, end: Position)

  datatype Edit = Edit(range: Range, newText: string)

  datatype Resolved = Resolved(start: nat, end: nat, text: string)

  // ---- Offsets

  /** Where lines start in the first `n` characters. */
  function LineStartsTo(content: string, n: nat): (starts: seq<nat>)
    requires n <= |content|
    ensures starts != []
  {
    if n == 0 then [0] else LineStartsTo(content, n - 1) + if content[n - 1] == '\n' then [n] else []
  }

  function LineStarts(content: string): (starts: seq<nat>)
    ensures starts != []
  {
    LineStartsTo(content, |content|)
  }

  function OffsetOf(content: string, starts: seq<nat>, pos: Position): nat {
    if pos.line >= |starts| then |content|
    else
      var lineEnd := if pos.line + 1 < |starts| then starts[pos.line + 1] else |content|;
      Min(Min(starts[pos.line] + pos.character, lineEnd), |content|)
  }

  /** The line offset `o` is on, of the first `n` lines. */
  function LineOf(starts: seq<nat>, o: nat, n: nat): nat
    requires n <= |starts|
  {
    if n <= 1 || starts[n - 1] <= o then (if n == 0 then 0 else n - 1) else LineOf(starts, o, n - 1)
  }

  lemma {:induction false} LineOfIs(starts: seq<nat>, o: nat, n: nat)
    requires 0 < n <= |starts| && starts[0] == 0
    ensures var line := LineOf(starts, o, n);
      line < n && starts[line] <= o && (line + 1 < n ==> o < starts[line + 1])
  {
    if !(n <= 1 || starts[n - 1] <= o) { LineOfIs(starts, o, n - 1); }
  }

  function PositionOf(starts: seq<nat>, o: nat): Position
    requires starts != [] && starts[0] == 0
    ensures LineOf(starts, o, |starts|) < |starts|
  {
    LineOfIs(starts, o, |starts|);
    var line := LineOf(starts, o, |starts|);
    Position(line, o - starts[line])
  }

  ghost predicate Increasing(starts: seq<nat>) { forall i, j | 0 <= i < j < |starts| :: starts[i] < starts[j] }

  /** The first line starts at 0, and one more after each newline. */
  lemma {:induction false} StartsAfterNewlines(content: string, n: nat)
    requires n <= |content|
    ensures var starts := LineStartsTo(content, n);
      && starts[0] == 0 && Increasing(starts)
      && (forall k | 0 <= k < |starts| :: starts[k] <= n)
      && (forall o | 0 < o <= n :: o in starts <==> content[o - 1] == '\n')
  {
    if n > 0 {
      StartsAfterNewlines(content, n - 1);
      var before := LineStartsTo(content, n - 1);
      assert n !in before;
    }
  }

  lemma OffsetInBounds(content: string, pos: Position)
    ensures OffsetOf(content, LineStarts(content), pos) <= |content|
  {
    StartsAfterNewlines(content, |content|);
  }

  ghost predicate AtOrBefore(p: Position, q: Position) {
    p.line < q.line || (p.line == q.line && p.character <= q.character)
  }

  lemma OffsetIsMonotone(content: string, p: Position, q: Position)
    requires AtOrBefore(p, q)
    ensures OffsetOf(content, LineStarts(content), p) <= OffsetOf(content, LineStarts(content), q)
  {
    StartsAfterNewlines(content, |content|);
    OffsetInBounds(content, p);
  }

  lemma OffsetUndoesPosition(content: string, o: nat)
    requires o <= |content|
    ensures LineStarts(content)[0] == 0
    ensures OffsetOf(content, LineStarts(content), PositionOf(LineStarts(content), o)) == o
  {
    var starts := LineStarts(content);
    StartsAfterNewlines(content, |content|);
    LineOfIs(starts, o, |starts|);
  }

  /** A position on a line that exists, not past the line's end. */
  ghost predicate OnLine(content: string, starts: seq<nat>, pos: Position) {
    && pos.line < |starts|
    && if pos.line + 1 < |starts| then starts[pos.line] + pos.character < starts[pos.line + 1]
       else starts[pos.line] + pos.character <= |content|
  }

  lemma PositionUndoesOffset(content: string, pos: Position)
    requires OnLine(content, LineStarts(content), pos)
    ensures LineStarts(content)[0] == 0
    ensures PositionOf(LineStarts(content), OffsetOf(content, LineStarts(content), pos)) == pos
  {
    var starts := LineStarts(content);
    StartsAfterNewlines(content, |content|);
    var o := OffsetOf(content, starts, pos);
    LineOfIs(starts, o, |starts|);
  }

  // ---- The order edits are applied in

  /** Before or at, by start and then by end. */
  predicate Upto(x: Resolved, y: Resolved) { x.start < y.start || (x.start == y.start && x.end <= y.end) }

  predicate Goes(x: Resolved, y: Resolved, up: bool) { if up then Upto(x, y) else Upto(y, x) }

  function Insert(x: Resolved, ys: seq<Resolved>, up: bool): (r: seq<Resolved>)
    ensures |r| == |ys| + 1
  {
    if ys == [] || Goes(x, ys[0], up) then [x] + ys else [ys[0]] + Insert(x, ys[1..], up)
  }

  /** Sorted up or down; what is equal in place stays in array order. */
  function Sort(xs: seq<Resolved>, up: bool): (r: seq<Resolved>)
    ensures |r| == |xs|
  {
    if xs == [] then [] else Insert(xs[0], Sort(xs[1..], up), up)
  }

  ghost predicate Sorted(xs: seq<Resolved>, up: bool) {
    forall i, j | 0 <= i < j < |xs| :: Goes(xs[i], xs[j], up)
  }

  lemma {:induction false} InsertElements(x: Resolved, ys: seq<Resolved>, up: bool)
    ensures multiset(Insert(x, ys, up)) == multiset{x} + multiset(ys)
  {
    if !(ys == [] || Goes(x, ys[0], up)) {
      assert ys == [ys[0]] + ys[1..];
      InsertElements(x, ys[1..], up);
    }
  }

  lemma {:induction false} InsertSorts(x: Resolved, ys: seq<Resolved>, up: bool)
    requires Sorted(ys, up)
    ensures Sorted(Insert(x, ys, up), up)
  {
    if !(ys == [] || Goes(x, ys[0], up)) {
      var rest := Insert(x, ys[1..], up);
      InsertSorts(x, ys[1..], up);
      InsertElements(x, ys[1..], up);
      forall j | 0 <= j < |rest| ensures Goes(ys[0], rest[j], up) {
        assert rest[j] in multiset(rest);
        assert rest[j] == x || rest[j] in ys[1..];
      }
    }
  }

  lemma {:induction false} SortSorts(xs: seq<Resolved>, up: bool)
    ensures Sorted(Sort(xs, up), up)
    ensures multiset(Sort(xs, up)) == multiset(xs)
  {
    if xs != [] {
      assert xs == [xs[0]] + xs[1..];
      SortSorts(xs[1..], up);
      InsertSorts(xs[0], Sort(xs[1..], up), up);
      InsertElements(xs[0], Sort(xs[1..], up), up);
    }
  }

  // ---- Applying

  function Before(s: string, n: nat): string { s[..Min(n, |s|)] }

  function From(s: string, n: nat): string { s[Min(n, |s|)..] }

  function ApplyOne(s: string, e: Resolved): string { Before(s, e.start) + e.text + From(s, e.end) }

  /** One after the other, as the loop goes. */
  function ApplyAll(s: string, es: seq<Resolved>): string
    decreases |es|
  {
    if es == [] then s else ApplyAll(ApplyOne(s, es[0]), es[1..])
  }

  function Resolve(content: string, edits: seq<Edit>): (r: seq<Resolved>)
    ensures |r| == |edits|
  {
    var starts := LineStarts(content);
    seq(|edits|, i requires 0 <= i < |edits| =>
          Resolved(OffsetOf(content, starts, edits[i].range.start), OffsetOf(content, starts, edits[i].range.end),
                   edits[i].newText))
  }

  function Apply(content: string, edits: seq<Edit>): string {
    ApplyAll(content, Sort(Resolve(content, edits), false))
  }

  method ApplyTextEditsToContent(content: string, edits: seq<Edit>) returns (out: string)
    ensures out == Apply(content, edits)
  {
    var lineStarts: seq<nat> := [0];
    for i := 0 to |content|
      invariant lineStarts == LineStartsTo(content, i)
    {
      if content[i] == '\n' { lineStarts := lineStarts + [i + 1]; }
    }
    assert lineStarts == LineStarts(content);
    var resolved := Sort(Resolve(content, edits), false);
    out := content;
    for k := 0 to |resolved|
      invariant ApplyAll(out, resolved[k..]) == Apply(content, edits)
    {
      var e := resolved[k];
      assert resolved[k..][1..] == resolved[k + 1..];
      out := Before(out, e.start) + e.text + From(out, e.end);
    }
  }

  // ---- What it comes to

  /** Edits of places that do not overlap. */
  ghost predicate Apart(x: Resolved, y: Resolved) { x.end <= y.start || y.end <= x.start }

  ghost predicate Disjoint(es: seq<Resolved>, n: nat) {
    && (forall i | 0 <= i < |es| :: es[i].start <= es[i].end <= n)
    && (forall i, j | 0 <= i < j < |es| :: Apart(es[i], es[j]))
  }

  /** Each edit ends where the next starts, or before. */
  ghost predicate InOrder(es: seq<Resolved>, from: nat, n: nat) {
    && (forall i | 0 <= i < |es| :: from <= es[i].start <= es[i].end <= n)
    && (forall i, j | 0 <= i < j < |es| :: es[i].end <= es[j].start)
  }

  lemma OrderedRest(es: seq<Resolved>, from: nat, n: nat)
    requires es != [] && InOrder(es, from, n)
    ensures InOrder(es[1..], es[0].end, n)
  {
    forall i | 0 <= i < |es[1..]| ensures es[0].end <= es[1..][i].start {
      assert es[1..][i] == es[i + 1];
    }
  }

  /** All at once, from left to right, from offset `from` on. */
  ghost function Splice(content: string, es: seq<Resolved>, from: nat): string
    requires from <= |content| && InOrder(es, from, |content|)
    decreases |es|
  {
    if es == [] then content[from..]
    else
      OrderedRest(es, from, |content|);
      content[from..es[0].start] + es[0].text + Splice(content, es[1..], es[0].end)
  }

  function Reversed<T>(s: seq<T>): (r: seq<T>)
    ensures |r| == |s|
  {
    if s == [] then [] else Reversed(s[1..]) + [s[0]]
  }

  lemma {:induction false} ReversedAt<T>(s: seq<T>, k: nat)
    requires k < |s|
    ensures Reversed(s)[k] == s[|s| - 1 - k]
  {
    if k < |s| - 1 { ReversedAt(s[1..], k); }
  }

  lemma {:induction false} ReversedElements<T>(s: seq<T>)
    ensures multiset(Reversed(s)) == multiset(s)
  {
    if s != [] {
      ReversedElements(s[1..]);
      assert s == [s[0]] + s[1..];
    }
  }

  lemma SortedReversed(es: seq<Resolved>)
    requires Sorted(es, false)
    ensures Sorted(Reversed(es), true)
  {
    forall i, j | 0 <= i < j < |es| ensures Goes(Reversed(es)[i], Reversed(es)[j], true) {
      ReversedAt(es, i);
      ReversedAt(es, j);
    }
  }

  lemma TwiceIn(es: seq<Resolved>, i: nat, j: nat)
    requires i < j < |es| && es[i] == es[j]
    ensures multiset(es)[es[i]] >= 2
  {
    assert es == es[..i] + [es[i]] + es[i + 1..j] + [es[j]] + es[j + 1..];
  }

  lemma {:induction false} TwiceAt(xs: seq<Resolved>, x: Resolved) returns (a: nat, b: nat)
    requires multiset(xs)[x] >= 2
    ensures a < b < |xs| && xs[a] == x && xs[b] == x
  {
    assert xs == [xs[0]] + xs[1..];
    if xs[0] == x {
      assert x in multiset(xs[1..]);
      a, b := 0, 0;
      var k :| 0 <= k < |xs[1..]| && xs[1..][k] == x;
      b := k + 1;
    } else {
      a, b := TwiceAt(xs[1..], x);
      a, b := a + 1, b + 1;
    }
  }

  lemma {:induction false} ApartInAnyOrder(xs: seq<Resolved>, es: seq<Resolved>, i: nat, j: nat)
    requires multiset(es) == multiset(xs) && i < j < |es|
    requires forall i, j | 0 <= i < j < |xs| :: Apart(xs[i], xs[j])
    ensures Apart(es[i], es[j])
  {
    var x, y := es[i], es[j];
    assert x in multiset(es) && y in multiset(es);
    assert x in xs && y in xs;
    if x == y {
      TwiceIn(es, i, j);
      var a, b := TwiceAt(xs, x);
    } else {
      var a :| 0 <= a < |xs| && xs[a] == x;
      var b :| 0 <= b < |xs| && xs[b] == y;
      if a < b { assert Apart(xs[a], xs[b]); } else { assert Apart(xs[b], xs[a]); }
    }
  }

  /** Disjoint edits in any order have places in a row when sorted. */
  lemma SortedDisjoint(xs: seq<Resolved>, es: seq<Resolved>, n: nat)
    requires Disjoint(xs, n) && multiset(es) == multiset(xs) && Sorted(es, true)
    ensures InOrder(es, 0, n)
  {
    forall i | 0 <= i < |es| ensures es[i].start <= es[i].end <= n {
      assert es[i] in multiset(es);
      assert es[i] in xs;
    }
    forall i, j | 0 <= i < j < |es| ensures es[i].end <= es[j].start {
      ApartInAnyOrder(xs, es, i, j);
    }
  }

  lemma LastInOrder(es: seq<Resolved>, z: Resolved, from: nat, n: nat)
    requires InOrder(es + [z], from, n)
    ensures from <= z.start <= z.end <= n && InOrder(es, from, z.start)
    ensures es != [] ==> from <= es[0].start <= es[0].end <= z.start && (es + [z])[1..] == es[1..] + [z]
  {
    var all := es + [z];
    assert all[|es|] == z;
    assert forall i | 0 <= i < |es| :: all[i] == es[i];
  }

  lemma InOrderWiden(es: seq<Resolved>, from: nat, m: nat, n: nat)
    requires InOrder(es, from, m) && m <= n
    ensures InOrder(es, from, n)
  {}

  lemma SpliceFirst(content: string, es: seq<Resolved>, from: nat)
    requires es != [] && from <= |content| && InOrder(es, from, |content|)
    ensures from <= es[0].start <= es[0].end <= |content| && InOrder(es[1..], es[0].end, |content|)
    ensures Splice(content, es, from) == content[from..es[0].start] + es[0].text + Splice(content, es[1..], es[0].end)
  {
    OrderedRest(es, from, |content|);
  }

  lemma SpliceNone(content: string, from: nat)
    requires from <= |content|
    ensures InOrder([], from, |content|) && Splice(content, [], from) == content[from..]
  {}

  lemma AppliedFrom(content: string, z: Resolved, from: nat)
    requires from <= z.start <= z.end <= |content|
    ensures var after := ApplyOne(content, z);
            from <= |after| && after[from..] == content[from..z.start] + z.text + content[z.end..]
  {
    var head, tail := content[..z.start], z.text + content[z.end..];
    assert ApplyOne(content, z) == head + tail;
    assert (head + tail)[from..] == head[from..] + tail && head[from..] == content[from..z.start];
  }

  lemma AppliedBefore(content: string, z: Resolved, from: nat, to: nat)
    requires from <= to <= z.start <= z.end <= |content|
    ensures to <= |ApplyOne(content, z)| && ApplyOne(content, z)[from..to] == content[from..to]
  {
    var head, tail := content[..z.start], z.text + content[z.end..];
    assert ApplyOne(content, z) == head + tail;
    assert (head + tail)[from..to] == head[from..to] && head[from..to] == content[from..to];
  }

  /** Applying the last edit first leaves the others to be spliced. */
  lemma {:induction false} SpliceLast(content: string, es: seq<Resolved>, z: Resolved, from: nat)
    requires from <= |content| && InOrder(es + [z], from, |content|)
    ensures InOrder(es, from, |ApplyOne(content, z)|) && from <= |ApplyOne(content, z)|
    ensures Splice(content, es + [z], from) == Splice(ApplyOne(content, z), es, from)
    decreases |es|
  {
    hide Splice, InOrder;
    var all := es + [z];
    var after := ApplyOne(content, z);
    LastInOrder(es, z, from, |content|);
    InOrderWiden(es, from, z.start, |after|);
    SpliceFirst(content, all, from);
    if es == [] {
      assert all[0] == z && all[1..] == [];
      SpliceNone(content, z.end);
      SpliceNone(after, from);
      AppliedFrom(content, z, from);
    } else {
      assert all[0] == es[0];
      SpliceLast(content, es[1..], z, es[0].end);
      SpliceFirst(after, es, from);
      AppliedBefore(content, z, from, es[0].start);
    }
  }

  lemma {:induction false} ReversedSnoc<T>(s: seq<T>, x: T)
    ensures Reversed(s + [x]) == [x] + Reversed(s)
  {
    if s != [] {
      assert (s + [x])[1..] == s[1..] + [x];
      ReversedSnoc(s[1..], x);
    } else {
      assert s + [x] == [x];
    }
  }

  /** From the last to the first is all at once, when the places are in a row. */
  lemma {:induction false} BackToFrontIsSplice(content: string, es: seq<Resolved>)
    requires InOrder(es, 0, |content|)
    ensures ApplyAll(content, Reversed(es)) == Splice(content, es, 0)
    decreases |es|
  {
    if es != [] {
      var n := |es| - 1;
      var init, z := es[..n], es[n];
      assert es == init + [z];
      SpliceLast(content, init, z, 0);
      ReversedSnoc(init, z);
      BackToFrontIsSplice(ApplyOne(content, z), init);
    }
  }

  lemma {:induction false} ReversedTwice<T>(s: seq<T>)
    ensures Reversed(Reversed(s)) == s
  {
    if s != [] {
      ReversedSnoc(Reversed(s[1..]), s[0]);
      ReversedTwice(s[1..]);
    }
  }

  /** Disjoint edits, whatever the array order, come to one splice from left to
      right; insertions at one offset come out last in the array first. */
  lemma ApplyIsSplice(content: string, edits: seq<Edit>)
    requires Disjoint(Resolve(content, edits), |content|)
    ensures var es := Reversed(Sort(Resolve(content, edits), false));
      InOrder(es, 0, |content|) && Apply(content, edits) == Splice(content, es, 0)
  {
    var xs := Resolve(content, edits);
    var down := Sort(xs, false);
    SortSorts(xs, false);
    SortedReversed(down);
    ReversedElements(down);
    SortedDisjoint(xs, Reversed(down), |content|);
    BackToFrontIsSplice(content, Reversed(down));
    ReversedTwice(down);
  }

  /** Ranges in a document that do not overlap resolve to edits that do not. */
  lemma ApartRangesResolveDisjoint(content: string, edits: seq<Edit>)
    requires forall i | 0 <= i < |edits| :: AtOrBefore(edits[i].range.start, edits[i].range.end)
    requires forall i, j | 0 <= i < j < |edits| ::
               || AtOrBefore(edits[i].range.end, edits[j].range.start)
               || AtOrBefore(edits[j].range.end, edits[i].range.start)
    ensures Disjoint(Resolve(content, edits), |content|)
  {
    var es := Resolve(content, edits);
    forall i | 0 <= i < |es| ensures es[i].start <= es[i].end <= |content| {
      OffsetIsMonotone(content, edits[i].range.start, edits[i].range.end);
      OffsetInBounds(content, edits[i].range.end);
    }
    forall i, j | 0 <= i < j < |es| ensures Apart(es[i], es[j]) {
      if AtOrBefore(edits[i].range.end, edits[j].range.start) {
        OffsetIsMonotone(content, edits[i].range.end, edits[j].range.start);
      } else {
        OffsetIsMonotone(content, edits[j].range.end, edits[i].range.start);
      }
    }
  }

  // ---- The array order

  predicate IsInsertionAt(e: Resolved, p: nat) { e.start == e.end == p }

  /** At no offset are there two insertions. */
  ghost predicate OneInsertionPerOffset(es: seq<Resolved>) {
    forall i, j | 0 <= i < j < |es| :: !(IsInsertionAt(es[i], es[i].start) && IsInsertionAt(es[j], es[i].start))
  }

  lemma RestSorted(a: seq<Resolved>, up: bool)
    requires a != [] && Sorted(a, up)
    ensures Sorted(a[1..], up) && multiset(a[1..]) == multiset(a) - multiset{a[0]}
    ensures forall x | x in a[1..] :: x in a
  {
    assert a == [a[0]] + a[1..];
  }

  lemma FirstsAgree(a: seq<Resolved>, b: seq<Resolved>, up: bool)
    requires Sorted(a, up) && Sorted(b, up) && multiset(a) == multiset(b) && a != []
    requires forall x, y | x in a && y in a && Upto(x, y) && Upto(y, x) :: x == y
    ensures b != [] && a[0] == b[0]
  {
    assert a[0] in multiset(b);
    assert b[0] in multiset(a);
    var i :| 0 <= i < |b| && b[i] == a[0];
    var j :| 0 <= j < |a| && a[j] == b[0];
    assert i > 0 ==> Goes(b[0], b[i], up);
    assert j > 0 ==> Goes(a[0], a[j], up);
  }

  /** Sorting leaves one order when no two edits are equal in place. */
  lemma {:induction false} SortedOneWay(a: seq<Resolved>, b: seq<Resolved>, up: bool)
    requires Sorted(a, up) && Sorted(b, up) && multiset(a) == multiset(b)
    requires forall x, y | x in a && y in a && Upto(x, y) && Upto(y, x) :: x == y
    ensures a == b
  {
    if a != [] {
      FirstsAgree(a, b, up);
      RestSorted(a, up);
      RestSorted(b, up);
      hide Sorted, Upto;
      SortedOneWay(a[1..], b[1..], up);
      assert a == [a[0]] + a[1..] && b == [b[0]] + b[1..];
    } else {
      assert |b| == |multiset(b)|;
    }
  }

  lemma OnePerPlace(xs: seq<Resolved>, n: nat)
    requires Disjoint(xs, n) && OneInsertionPerOffset(xs)
    ensures forall x, y | x in xs && y in xs && Upto(x, y) && Upto(y, x) :: x == y
  {
    forall i, j | 0 <= i < j < |xs| ensures !(Upto(xs[i], xs[j]) && Upto(xs[j], xs[i])) {
      assert Apart(xs[i], xs[j]);
    }
    forall x, y | x in xs && y in xs && Upto(x, y) && Upto(y, x) ensures x == y {
      var i :| 0 <= i < |xs| && xs[i] == x;
      var j :| 0 <= j < |xs| && xs[j] == y;
    }
  }

  lemma SamePlaces(xs: seq<Resolved>, es: seq<Resolved>)
    requires multiset(xs) == multiset(es)
    ensures forall x :: x in es <==> x in xs
  {
    forall x ensures x in es <==> x in xs {
      assert x in es <==> x in multiset(es);
      assert x in xs <==> x in multiset(xs);
    }
  }

  /** Disjoint edits, one insertion at an offset at most: all at once, from left to right. */
  lemma ApplyIsSimultaneous(content: string, edits: seq<Edit>)
    requires Disjoint(Resolve(content, edits), |content|) && OneInsertionPerOffset(Resolve(content, edits))
    ensures var es := Sort(Resolve(content, edits), true);
      InOrder(es, 0, |content|) && Apply(content, edits) == Splice(content, es, 0)
  {
    hide Splice, InOrder, Sorted, Disjoint, Sort, Reversed, Apply, Resolve, OneInsertionPerOffset;
    var xs := Resolve(content, edits);
    var es := Reversed(Sort(xs, false));
    ApplyIsSplice(content, edits);
    OnePerPlace(xs, |content|);
    SortSorts(xs, false);
    SortSorts(xs, true);
    SortedReversed(Sort(xs, false));
    ReversedElements(Sort(xs, false));
    SamePlaces(xs, es);
    SortedOneWay(es, Sort(xs, true), true);
  }

  /** Then the array order does not matter. */
  lemma ArrayOrderDoesNotMatter(content: string, edits: seq<Edit>, edits': seq<Edit>)
    requires Disjoint(Resolve(content, edits), |content|) && OneInsertionPerOffset(Resolve(content, edits))
    requires multiset(Resolve(content, edits)) == multiset(Resolve(content, edits'))
    ensures Apply(content, edits) == Apply(content, edits')
  {
    var xs, ys := Resolve(content, edits), Resolve(content, edits');
    OnePerPlace(xs, |content|);
    SortSorts(xs, false);
    SortSorts(ys, false);
    SamePlaces(xs, Sort(xs, false));
    SortedOneWay(Sort(xs, false), Sort(ys, false), false);
  }

  // ---- Insertions at one offset

  /** What is inserted at `p`, in array order. */
  function Inserted(es: seq<Resolved>, p: nat): string {
    if es == [] then "" else (if IsInsertionAt(es[0], p) then es[0].text else "") + Inserted(es[1..], p)
  }

  /** What is inserted at `p`, last in the array first. */
  function InsertedBack(es: seq<Resolved>, p: nat): string {
    if es == [] then "" else InsertedBack(es[1..], p) + if IsInsertionAt(es[0], p) then es[0].text else ""
  }

  lemma {:induction false} InsertedThen(a: seq<Resolved>, b: seq<Resolved>, p: nat)
    ensures Inserted(a + b, p) == Inserted(a, p) + Inserted(b, p)
  {
    if a == [] {
      assert a + b == b;
    } else {
      assert (a + b)[1..] == a[1..] + b;
      InsertedThen(a[1..], b, p);
    }
  }

  lemma {:induction false} InsertedReversed(es: seq<Resolved>, p: nat)
    ensures Inserted(Reversed(es), p) == InsertedBack(es, p)
  {
    if es != [] {
      InsertedReversed(es[1..], p);
      InsertedThen(Reversed(es[1..]), [es[0]], p);
      assert [es[0]][1..] == [];
    }
  }

  lemma InsertedCons(x: Resolved, ys: seq<Resolved>, p: nat)
    ensures Inserted([x] + ys, p) == (if IsInsertionAt(x, p) then x.text else "") + Inserted(ys, p)
    ensures InsertedBack([x] + ys, p) == InsertedBack(ys, p) + if IsInsertionAt(x, p) then x.text else ""
  {
    assert ([x] + ys)[1..] == ys;
  }

  lemma {:induction false} InsertKeepsOrder(x: Resolved, ys: seq<Resolved>, up: bool, p: nat)
    ensures Inserted(Insert(x, ys, up), p) == (if IsInsertionAt(x, p) then x.text else "") + Inserted(ys, p)
    ensures InsertedBack(Insert(x, ys, up), p) == InsertedBack(ys, p) + if IsInsertionAt(x, p) then x.text else ""
  {
    if ys == [] || Goes(x, ys[0], up) {
      InsertedCons(x, ys, p);
    } else {
      InsertKeepsOrder(x, ys[1..], up, p);
      InsertedCons(ys[0], Insert(x, ys[1..], up), p);
      assert !(IsInsertionAt(x, p) && IsInsertionAt(ys[0], p));
    }
  }

  lemma {:induction false} SortKeepsOrder(xs: seq<Resolved>, up: bool, p: nat)
    ensures Inserted(Sort(xs, up), p) == Inserted(xs, p)
    ensures InsertedBack(Sort(xs, up), p) == InsertedBack(xs, p)
  {
    if xs != [] {
      SortKeepsOrder(xs[1..], up, p);
      InsertKeepsOrder(xs[0], Sort(xs[1..], up), up, p);
    }
  }

  /** How many insertions at `p` come first. */
  function Lead(es: seq<Resolved>, p: nat): (k: nat)
    ensures k <= |es|
    ensures k < |es| ==> !IsInsertionAt(es[k], p)
    ensures forall i | 0 <= i < k :: IsInsertionAt(es[i], p)
  {
    if es == [] || !IsInsertionAt(es[0], p) then 0 else 1 + Lead(es[1..], p)
  }

  /** In sorted edits the insertions at the first place all come first. */
  lemma LeadIsAll(es: seq<Resolved>, from: nat, n: nat)
    requires es != [] && InOrder(es, from, n) && Sorted(es, true) && es[0].start == es[0].end
    ensures var p := es[0].start; var k := Lead(es, p);
      && k > 0
      && (forall i | k <= i < |es| :: !IsInsertionAt(es[i], p))
      && InOrder(es[k..], p, n) && Sorted(es[k..], true)
  {
    var p := es[0].start;
    var k := Lead(es, p);
    forall i | k <= i < |es| ensures !IsInsertionAt(es[i], p) {
      if i > k { assert Goes(es[k], es[i], true) && Goes(es[0], es[k], true); }
    }
  }

  lemma {:induction false} NoneInserted(es: seq<Resolved>, p: nat)
    requires forall i | 0 <= i < |es| :: !IsInsertionAt(es[i], p)
    ensures Inserted(es, p) == ""
  {
    if es != [] { NoneInserted(es[1..], p); }
  }

  lemma InsertedNone(p: nat)
    ensures Inserted([], p) == ""
  {}

  lemma Regrouped(a: string, b: string, c: string, d: string)
    ensures a + b + (c + d) == a + (b + c) + d
    ensures "" + c + d == c + d && "" + d == d
  {}

  lemma InsertedFirst(es: seq<Resolved>, p: nat)
    requires es != []
    ensures Inserted(es, p) == (if IsInsertionAt(es[0], p) then es[0].text else "") + Inserted(es[1..], p)
    ensures !IsInsertionAt(es[0], p) ==> Inserted(es, p) == Inserted(es[1..], p)
  {}

  /** The insertions at the first place spliced as one. */
  lemma {:induction false} SpliceLead(content: string, es: seq<Resolved>, p: nat, k: nat, from: nat)
    requires from <= |content| && InOrder(es, from, |content|)
    requires k <= |es| && forall i | 0 <= i < k :: IsInsertionAt(es[i], p)
    requires k > 0
    ensures from <= p <= |content| && InOrder(es[k..], p, |content|)
    ensures Splice(content, es, from) == content[from..p] + Inserted(es[..k], p) + Splice(content, es[k..], p)
    decreases k
  {
    hide InOrder, Splice, Inserted;
    var first, rest := es[..k], es[1..];
    assert es[k..] == rest[k - 1..] && first[0] == es[0] && first[1..] == rest[..k - 1];
    SpliceFirst(content, es, from);
    InsertedFirst(first, p);
    if k == 1 {
      InsertedNone(p);
      assert rest[0..] == rest;
    } else {
      SpliceLead(content, rest, p, k - 1, p);
      assert content[p..p] == "";
    }
    Regrouped(content[from..p], es[0].text, Inserted(first[1..], p), Splice(content, es[k..], p));
  }

  /** The places of `es` but those inserting at `p`. */
  lemma RestElements(es: seq<Resolved>, p: nat, k: nat)
    requires k <= |es|
    requires forall i | 0 <= i < k :: IsInsertionAt(es[i], p)
    requires forall i | k <= i < |es| :: !IsInsertionAt(es[i], p)
    ensures forall e :: multiset(es[k..])[e] == if IsInsertionAt(e, p) then 0 else multiset(es)[e]
  {
    assert es == es[..k] + es[k..];
    forall e ensures multiset(es[k..])[e] == if IsInsertionAt(e, p) then 0 else multiset(es)[e] {
      if IsInsertionAt(e, p) { assert e !in es[k..]; } else { assert e !in es[..k]; }
    }
  }

  lemma SameRest(a: seq<Resolved>, b: seq<Resolved>, p: nat, k: nat, l: nat)
    requires multiset(a) == multiset(b) && k <= |a| && l <= |b|
    requires forall i | 0 <= i < k :: IsInsertionAt(a[i], p)
    requires forall i | k <= i < |a| :: !IsInsertionAt(a[i], p)
    requires forall i | 0 <= i < l :: IsInsertionAt(b[i], p)
    requires forall i | l <= i < |b| :: !IsInsertionAt(b[i], p)
    ensures multiset(a[k..]) == multiset(b[l..])
  {
    RestElements(a, p, k);
    RestElements(b, p, l);
  }

  lemma WithoutOne(b: seq<Resolved>, i: nat, p: nat)
    requires i < |b|
    ensures multiset(b[..i] + b[i + 1..]) == multiset(b) - multiset{b[i]}
    ensures |Inserted(b, p)| == |Inserted(b[..i] + b[i + 1..], p)| + if IsInsertionAt(b[i], p) then |b[i].text| else 0
  {
    assert b == b[..i] + ([b[i]] + b[i + 1..]);
    InsertedThen(b[..i], [b[i]] + b[i + 1..], p);
    InsertedThen(b[..i], b[i + 1..], p);
    assert ([b[i]] + b[i + 1..])[1..] == b[i + 1..];
  }

  lemma {:induction false} InsertedLength(a: seq<Resolved>, b: seq<Resolved>, p: nat)
    requires multiset(a) == multiset(b)
    ensures |Inserted(a, p)| == |Inserted(b, p)|
  {
    if a == [] {
      assert |b| == |multiset(b)|;
    } else {
      assert a == [a[0]] + a[1..];
      assert a[0] in multiset(b);
      var i :| 0 <= i < |b| && b[i] == a[0];
      WithoutOne(b, i, p);
      InsertedLength(a[1..], b[..i] + b[i + 1..], p);
    }
  }

  lemma SortedRest(es: seq<Resolved>)
    requires es != [] && Sorted(es, true)
    ensures Sorted(es[1..], true)
  {}

  ghost predicate InsertAlike(a: seq<Resolved>, b: seq<Resolved>) {
    forall p :: Inserted(a, p) == Inserted(b, p)
  }

  /** The first edit inserts nothing: it makes no difference. */
  lemma AlikeFirst(a: seq<Resolved>, b: seq<Resolved>)
    requires a != [] && b != [] && a[0] == b[0] && a[0].start < a[0].end
    ensures InsertAlike(a, b) <==> InsertAlike(a[1..], b[1..])
  {
    hide Inserted;
    forall p ensures Inserted(a, p) == Inserted(a[1..], p) && Inserted(b, p) == Inserted(b[1..], p) {
      InsertedFirst(a, p);
      InsertedFirst(b, p);
    }
    if InsertAlike(a, b) {
      forall p ensures Inserted(a[1..], p) == Inserted(b[1..], p) {
        assert Inserted(a, p) == Inserted(b, p);
      }
    }
    if InsertAlike(a[1..], b[1..]) {
      forall p ensures Inserted(a, p) == Inserted(b, p) {
        assert Inserted(a[1..], p) == Inserted(b[1..], p);
      }
    }
  }

  lemma InsertedParts(es: seq<Resolved>, p: nat, k: nat)
    requires k <= |es| && forall i | k <= i < |es| :: !IsInsertionAt(es[i], p)
    ensures Inserted(es, p) == Inserted(es[..k], p) && Inserted(es[k..], p) == ""
  {
    assert es == es[..k] + es[k..];
    InsertedThen(es[..k], es[k..], p);
    NoneInserted(es[k..], p);
  }

  lemma InsertedElsewhere(es: seq<Resolved>, p: nat, k: nat, q: nat)
    requires k <= |es| && forall i | 0 <= i < k :: IsInsertionAt(es[i], p)
    ensures q != p ==> Inserted(es, q) == Inserted(es[k..], q)
  {
    assert es == es[..k] + es[k..];
    InsertedThen(es[..k], es[k..], q);
    if q != p { NoneInserted(es[..k], q); }
  }

  /** The first `k` and `l` edits insert all there is at `p`. */
  lemma AlikeLead(a: seq<Resolved>, b: seq<Resolved>, p: nat, k: nat, l: nat)
    requires k <= |a| && l <= |b|
    requires forall i | 0 <= i < k :: IsInsertionAt(a[i], p)
    requires forall i | k <= i < |a| :: !IsInsertionAt(a[i], p)
    requires forall i | 0 <= i < l :: IsInsertionAt(b[i], p)
    requires forall i | l <= i < |b| :: !IsInsertionAt(b[i], p)
    ensures InsertAlike(a, b) <==> Inserted(a[..k], p) == Inserted(b[..l], p) && InsertAlike(a[k..], b[l..])
  {
    hide Inserted;
    InsertedParts(a, p, k);
    InsertedParts(b, p, l);
    forall q ensures q != p ==> Inserted(a, q) == Inserted(a[k..], q) && Inserted(b, q) == Inserted(b[l..], q) {
      InsertedElsewhere(a, p, k, q);
      InsertedElsewhere(b, p, l, q);
    }
    if InsertAlike(a, b) {
      forall q ensures Inserted(a[k..], q) == Inserted(b[l..], q) {
        assert Inserted(a, q) == Inserted(b, q);
      }
      assert Inserted(a, p) == Inserted(b, p);
    }
    if Inserted(a[..k], p) == Inserted(b[..l], p) && InsertAlike(a[k..], b[l..]) {
      forall q ensures Inserted(a, q) == Inserted(b, q) {
        assert Inserted(a[k..], q) == Inserted(b[l..], q);
      }
    }
  }

  lemma SameFirstPlace(a: seq<Resolved>, b: seq<Resolved>, from: nat, n: nat)
    requires a != [] && b != [] && InOrder(a, from, n) && InOrder(b, from, n)
    requires Sorted(a, true) && Sorted(b, true) && multiset(a) == multiset(b)
    ensures a[0].start == b[0].start && a[0].end == b[0].end
    ensures a[0].start < a[0].end ==> a[0] == b[0]
  {
    assert a[0] in multiset(b) && b[0] in multiset(a);
    var i :| 0 <= i < |b| && b[i] == a[0];
    var j :| 0 <= j < |a| && a[j] == b[0];
    if i > 0 { assert Goes(b[0], b[i], true); }
    if j > 0 { assert Goes(a[0], a[j], true); }
  }

  lemma SameButFirst(a: seq<Resolved>, b: seq<Resolved>)
    requires a != [] && b != [] && a[0] == b[0] && multiset(a) == multiset(b)
    ensures multiset(a[1..]) == multiset(b[1..])
  {
    assert a == [a[0]] + a[1..] && b == [b[0]] + b[1..];
    assert multiset(a[1..]) == multiset(a) - multiset{a[0]};
  }

  lemma InOrderFirst(es: seq<Resolved>, from: nat, n: nat)
    requires es != [] && InOrder(es, from, n)
    ensures from <= es[0].start <= es[0].end <= n
  {}

  lemma SameTail(x: string, s: string, y: string, t: string)
    requires |x| == |y|
    ensures x + s == y + t <==> x == y && s == t
  {
    if x + s == y + t {
      assert x == (x + s)[..|x|] && y == (y + t)[..|y|];
      assert s == (x + s)[|x|..] && t == (y + t)[|y|..];
    }
  }

  lemma SpliceAlikeFirst(content: string, a: seq<Resolved>, b: seq<Resolved>, from: nat)
    requires from <= |content| && InOrder(a, from, |content|) && InOrder(b, from, |content|)
    requires Sorted(a, true) && Sorted(b, true) && multiset(a) == multiset(b)
    requires a != [] && b != [] && a[0] == b[0] && a[0].start < a[0].end
    ensures Splice(content, a, from) == Splice(content, b, from) <==> InsertAlike(a, b)
    decreases |a|, 0
  {
    hide Splice, Inserted, InOrder, Sorted, InsertAlike;
    var e := a[0];
    SpliceFirst(content, a, from);
    SpliceFirst(content, b, from);
    SortedRest(a);
    SortedRest(b);
    InOrderFirst(a, from, |content|);
    SameButFirst(a, b);
    SpliceAlike(content, a[1..], b[1..], e.end);
    SameTail(content[from..e.start] + e.text, Splice(content, a[1..], e.end), content[from..e.start] + e.text,
             Splice(content, b[1..], e.end));
    AlikeFirst(a, b);
  }

  lemma SpliceAlikeLead(content: string, a: seq<Resolved>, b: seq<Resolved>, from: nat)
    requires from <= |content| && InOrder(a, from, |content|) && InOrder(b, from, |content|)
    requires Sorted(a, true) && Sorted(b, true) && multiset(a) == multiset(b)
    requires a != [] && b != [] && a[0].start == a[0].end == b[0].start == b[0].end
    ensures Splice(content, a, from) == Splice(content, b, from) <==> InsertAlike(a, b)
    decreases |a|, 0
  {
    hide Splice, Inserted, InOrder, Sorted, InsertAlike;
    var p := a[0].start;
    var k, l := Lead(a, p), Lead(b, p);
    LeadIsAll(a, from, |content|);
    LeadIsAll(b, from, |content|);
    SpliceLead(content, a, p, k, from);
    SpliceLead(content, b, p, l, from);
    SameRest(a, b, p, k, l);
    SpliceAlike(content, a[k..], b[l..], p);
    InsertedParts(a, p, k);
    InsertedParts(b, p, l);
    InsertedLength(a, b, p);
    var x, y := content[from..p] + Inserted(a[..k], p), content[from..p] + Inserted(b[..l], p);
    SameTail(x, Splice(content, a[k..], p), y, Splice(content, b[l..], p));
    SameTail(content[from..p], Inserted(a[..k], p), content[from..p], Inserted(b[..l], p));
    AlikeLead(a, b, p, k, l);
  }

  /** Two orders of the same places splice alike just when at every offset they
      insert alike. */
  lemma {:induction false} SpliceAlike(content: string, a: seq<Resolved>, b: seq<Resolved>, from: nat)
    requires from <= |content| && InOrder(a, from, |content|) && InOrder(b, from, |content|)
    requires Sorted(a, true) && Sorted(b, true) && multiset(a) == multiset(b)
    ensures Splice(content, a, from) == Splice(content, b, from) <==> InsertAlike(a, b)
    decreases |a|
  {
    assert |a| == |multiset(a)| && |b| == |multiset(b)|;
    if a != [] {
      SameFirstPlace(a, b, from, |content|);
      if a[0].start == a[0].end {
        SpliceAlikeLead(content, a, b, from);
      } else {
        SpliceAlikeFirst(content, a, b, from);
      }
    }
  }

  /** At each offset the texts inserted read the same joined in array order and in reverse. */
  ghost predicate ReadsTheSame(xs: seq<Resolved>) {
    forall p :: Inserted(xs, p) == InsertedBack(xs, p)
  }

  lemma AlikeIfReadsTheSame(xs: seq<Resolved>)
    ensures InsertAlike(Reversed(Sort(xs, false)), Sort(xs, true)) <==> ReadsTheSame(xs)
  {
    hide Inserted, InsertedBack, Sort, Reversed;
    var es, fs := Reversed(Sort(xs, false)), Sort(xs, true);
    forall p ensures Inserted(es, p) == InsertedBack(xs, p) && Inserted(fs, p) == Inserted(xs, p) {
      InsertedReversed(Sort(xs, false), p);
      SortKeepsOrder(xs, false, p);
      SortKeepsOrder(xs, true, p);
    }
    if InsertAlike(es, fs) {
      forall p ensures Inserted(xs, p) == InsertedBack(xs, p) { assert Inserted(es, p) == Inserted(fs, p); }
    }
    if ReadsTheSame(xs) {
      forall p ensures Inserted(es, p) == Inserted(fs, p) { assert Inserted(xs, p) == InsertedBack(xs, p); }
    }
  }

  /** Disjoint edits come to what LSP asks for, insertions at one offset in array
      order, just when at each offset the texts inserted read the same joined in
      array order and in reverse. */
  lemma LspOrderIff(content: string, edits: seq<Edit>)
    requires Disjoint(Resolve(content, edits), |content|)
    ensures var xs := Resolve(content, edits);
      && InOrder(Sort(xs, true), 0, |content|)
      && (Apply(content, edits) == Splice(content, Sort(xs, true), 0) <==> ReadsTheSame(xs))
  {
    hide Splice, Inserted, InsertedBack, InOrder, Sorted, Disjoint, Sort, Reversed, Apply, Resolve, InsertAlike,
        ReadsTheSame;
    var xs := Resolve(content, edits);
    var es := Reversed(Sort(xs, false));
    ApplyIsSplice(content, edits);
    SortSorts(xs, false);
    SortSorts(xs, true);
    SortedReversed(Sort(xs, false));
    ReversedElements(Sort(xs, false));
    SortedDisjoint(xs, Sort(xs, true), |content|);
    SpliceAlike(content, es, Sort(xs, true), 0);
    AlikeIfReadsTheSame(xs);
  }

  /** Edits at one place are left in their order, up or down. */
  lemma SortsOfTwo(a: Resolved, b: Resolved, up: bool)
    requires a.start == a.end == b.start == b.end
    ensures Sort([a, b], up) == [a, b]
  {
    assert [a, b][1..] == [b] && [b][1..] == [];
    assert Sort([b], up) == [b];
  }

  lemma AppliedAtStart(s: string, e: Resolved)
    requires e.start == e.end == 0
    ensures ApplyOne(s, e) == e.text + s
  {
    assert Before(s, 0) == "" && From(s, 0) == s;
  }

  /** Two insertions into an empty text, one after the other. */
  lemma TwoApplied(a: Resolved, b: Resolved)
    requires a.start == a.end == b.start == b.end == 0
    ensures ApplyAll("", [a, b]) == b.text + a.text
  {
    AppliedAtStart("", a);
    AppliedAtStart(a.text, b);
    hide ApplyOne;
    assert a.text + "" == a.text;
    assert [a, b][1..] == [b] && [b][1..] == [];
    assert ApplyAll(a.text, [b]) == b.text + a.text;
  }

  /** And both at once. */
  lemma TwoSpliced(a: Resolved, b: Resolved)
    requires a.start == a.end == b.start == b.end == 0
    ensures InOrder([a, b], 0, 0) && Splice("", [a, b], 0) == a.text + b.text
  {
    assert [a, b][1..] == [b] && [b][1..] == [];
    SpliceFirst("", [a, b], 0);
    SpliceFirst("", [b], 0);
    SpliceNone("", 0);
    hide Splice, InOrder;
    assert ""[0..] == "" && ""[0..0] == "";
    assert "" + b.text + "" == b.text && "" + a.text == a.text;
  }

  lemma TwoResolved(at: Range, a: Edit, b: Edit)
    requires at == Range(Position(0, 0), Position(0, 0)) && a.range == b.range == at
    ensures Resolve("", [a, b]) == [Resolved(0, 0, a.newText), Resolved(0, 0, b.newText)]
  {
    assert LineStarts("") == [0];
    assert OffsetOf("", [0], at.start) == 0;
  }

  /** Two insertions at the start of an empty text come out last first; in array order
      they are the other way round. */
  lemma TwoInsertionsComeOutReversed()
    ensures var at := Range(Position(0, 0), Position(0, 0));
      var edits := [Edit(at, "a"), Edit(at, "b")];
      var sorted := Sort(Resolve("", edits), true);
      Apply("", edits) == "ba" && InOrder(sorted, 0, 0) && Splice("", sorted, 0) == "ab"
  {
    var at := Range(Position(0, 0), Position(0, 0));
    var a, b := Resolved(0, 0, "a"), Resolved(0, 0, "b");
    TwoResolved(at, Edit(at, "a"), Edit(at, "b"));
    SortsOfTwo(a, b, false);
    SortsOfTwo(a, b, true);
    TwoApplied(a, b);
    TwoSpliced(a, b);
    hide Resolve, Sort, ApplyAll, InOrder, Splice;
    assert "b" + "a" == "ba" && "a" + "b" == "ab";
  }
}
