/**
 Where positions stand in a text, by its newlines alone, and what edits between such
 places make of it.
 */
module TextPlaces {
  import opened Basics
  import opened TextEdits

  function Newlines(content: string, n: nat): nat
    requires n <= |content|
  {
    if n == 0 then 0 else Newlines(content, n - 1) + if content[n - 1] == '\n' then 1 else 0
  }

  /** Line `line` starts at `l`: at 0, or after as many newlines. */
  ghost predicate StartsLine(content: string, line: nat, l: nat) {
    l <= |content| && Newlines(content, l) == line && (l == 0 || content[l - 1] == '\n')
  }

  /** `o` is `character` characters into the line that starts at `l`; or less, and then just
      past the line's newline or at the end of the text. */
  ghost predicate StandsIn(content: string, l: nat, character: nat, o: nat) {
    && l <= o <= |content| && o <= l + character
    && (forall k | l <= k < o - 1 :: content[k] != '\n')
    && (o < l + character ==> o == |content| || (o > l && content[o - 1] == '\n'))
  }

  /** `pos` stands at offset `o`; past the last line, at the end. */
  ghost predicate Stands(content: string, pos: Position, o: nat) {
    if pos.line > Newlines(content, |content|) then o == |content|
    else exists l: nat :: StartsLine(content, pos.line, l) && StandsIn(content, l, pos.character, o)
  }

  lemma {:induction false} NewlinesGrow(content: string, m: nat, n: nat)
    requires m <= n <= |content|
    ensures Newlines(content, m) <= Newlines(content, n)
    ensures (forall k | m <= k < n :: content[k] != '\n') <==> Newlines(content, m) == Newlines(content, n)
  {
    if m < n { NewlinesGrow(content, m, n - 1); }
  }

  /** The code's line starts are where the lines start. */
  lemma {:induction false} StartIsStart(content: string, n: nat, k: nat)
    requires n <= |content|
    ensures |LineStartsTo(content, n)| == Newlines(content, n) + 1
    ensures k < |LineStartsTo(content, n)| ==>
              LineStartsTo(content, n)[k] <= n && StartsLine(content, k, LineStartsTo(content, n)[k])
  {
    if n > 0 { StartIsStart(content, n - 1, k); }
  }

  lemma LinesStartOnce(content: string, line: nat, l: nat, m: nat)
    requires StartsLine(content, line, l) && StartsLine(content, line, m)
    ensures l == m
  {
    if l < m { NewlinesGrow(content, l, m); }
    if m < l { NewlinesGrow(content, m, l); }
  }

  lemma StandsOnce(content: string, l: nat, character: nat, o: nat, p: nat)
    requires StandsIn(content, l, character, o) && StandsIn(content, l, character, p)
    ensures o == p
  {}

  /** From one line's start to the next there is a newline only just before the next. */
  lemma NoneBetween(content: string, line: nat, l: nat, next: nat)
    requires StartsLine(content, line, l) && l <= next <= |content|
    requires if next == |content| && Newlines(content, next) == line then true else StartsLine(content, line + 1, next)
    ensures forall k | l <= k < next - 1 :: content[k] != '\n'
  {
    if next > l {
      NewlinesGrow(content, l, next - 1);
    }
  }

  lemma OffsetStands(content: string, pos: Position)
    ensures Stands(content, pos, OffsetOf(content, LineStarts(content), pos))
  {
    var starts, n := LineStarts(content), |content|;
    StartIsStart(content, n, pos.line);
    StartIsStart(content, n, pos.line + 1);
    if pos.line < |starts| {
      var l := starts[pos.line];
      var next := if pos.line + 1 < |starts| then starts[pos.line + 1] else n;
      StartsAfterNewlines(content, n);
      NewlinesGrow(content, l, n);
      hide LineStartsTo, Newlines;
      NoneBetween(content, pos.line, l, next);
      assert StandsIn(content, l, pos.character, OffsetOf(content, starts, pos));
    }
  }

  /** A position's offset is where it stands. */
  lemma OffsetIffStands(content: string, pos: Position, o: nat)
    ensures Stands(content, pos, o) <==> o == OffsetOf(content, LineStarts(content), pos)
  {
    OffsetStands(content, pos);
    var at := OffsetOf(content, LineStarts(content), pos);
    hide OffsetOf, LineStarts, StartsLine, StandsIn;
    if Stands(content, pos, o) && pos.line <= Newlines(content, |content|) {
      var l: nat :| StartsLine(content, pos.line, l) && StandsIn(content, l, pos.character, o);
      var m: nat :| StartsLine(content, pos.line, m) && StandsIn(content, m, pos.character, at);
      LinesStartOnce(content, pos.line, l, m);
      StandsOnce(content, l, pos.character, o, at);
    }
  }

  // ---- What edits come to

  /** `places` are the edits by offsets. */
  ghost predicate IsAt(content: string, edit: Edit, place: Resolved) {
    && Stands(content, edit.range.start, place.start) && Stands(content, edit.range.end, place.end)
    && edit.newText == place.text
  }

  ghost predicate AreAt(content: string, edits: seq<Edit>, places: seq<Resolved>) {
    |edits| == |places| && forall i | 0 <= i < |edits| :: IsAt(content, edits[i], places[i])
  }

  lemma PlacesAreResolved(content: string, edits: seq<Edit>, places: seq<Resolved>)
    ensures AreAt(content, edits, places) <==> places == Resolve(content, edits)
  {
    forall i | 0 <= i < |edits| && |edits| == |places|
      ensures IsAt(content, edits[i], places[i]) <==> places[i] == Resolve(content, edits)[i]
    {
      OffsetIffStands(content, edits[i].range.start, places[i].start);
      OffsetIffStands(content, edits[i].range.end, places[i].end);
    }
    hide IsAt;
  }

  /** One edit replaces what is between its two places by its text. */
  lemma OneEditReplaces(content: string, edit: Edit, o: nat, p: nat)
    requires o <= p && Stands(content, edit.range.start, o) && Stands(content, edit.range.end, p)
    ensures p <= |content| && Apply(content, [edit]) == content[..o] + edit.newText + content[p..]
  {
    var place := Resolved(o, p, edit.newText);
    PlacesAreResolved(content, [edit], [place]);
    OffsetIffStands(content, edit.range.end, p);
    OffsetInBounds(content, edit.range.end);
    hide Resolve, Stands, OffsetOf;
    assert [place][1..] == [];
    assert Sort([place], false) == [place];
    assert ApplyAll(content, [place]) == ApplyOne(content, place);
  }

  /** Edits of places that do not overlap, one insertion at a place at most: whatever order
      they are given in, each replaces what is between its places, from left to right. */
  lemma EditsReplace(content: string, edits: seq<Edit>, places: seq<Resolved>, inOrder: seq<Resolved>)
    requires AreAt(content, edits, places) && Disjoint(places, |content|) && OneInsertionPerOffset(places)
    requires multiset(inOrder) == multiset(places) && InOrder(inOrder, 0, |content|)
    ensures Apply(content, edits) == Splice(content, inOrder, 0)
  {
    assert Sorted(inOrder, true);
    PlacesAreResolved(content, edits, places);
    ApplyIsSimultaneous(content, edits);
    OnePerPlace(places, |content|);
    SortSorts(places, true);
    hide Sorted, Sort, Disjoint, OneInsertionPerOffset, AreAt, Resolve, Apply, Splice, InOrder;
    SamePlaces(places, inOrder);
    SortedOneWay(inOrder, Sort(places, true), true);
  }
}
