/**
 The line diff behind the editor's gutter: a table of longest-common-subsequence
 lengths, a backtrack that marks lines deleted or added, and a forward walk over
 the marks that tells changed lines from new ones.
 */
module LineDiff {
  import opened Basics

  type Line = string

  const MAX_LINES := 5000

  datatype LineKind = Same | Added | Modified

  datatype Diff = Diff(kinds: seq<LineKind>, deletedBefore: seq<bool>)

  // ---- The edit script

  /** What the table holds for the first `i` lines of `a` and the first `j` of `b`. */
  function Lcs(a: seq<Line>, b: seq<Line>, i: nat, j: nat): nat
    requires i <= |a| && j <= |b|
    decreases i + j
  {
    if i == 0 || j == 0 then 0
    else if a[i - 1] == b[j - 1] then Lcs(a, b, i - 1, j - 1) + 1
    else Max(Lcs(a, b, i - 1, j), Lcs(a, b, i, j - 1))
  }

  /** The lines of `a` deleted and of `b` added. */
  datatype Script = Script(deleted: seq<bool>, added: seq<bool>)

  /** The marks the backtrack leaves on the first `i` and `j` lines. */
  function Backtrack(a: seq<Line>, b: seq<Line>, i: nat, j: nat): (s: Script)
    requires i <= |a| && j <= |b|
    ensures |s.deleted| == i && |s.added| == j
    decreases i + j
  {
    if i > 0 && j > 0 && a[i - 1] == b[j - 1] then
      var s := Backtrack(a, b, i - 1, j - 1);
      Script(s.deleted + [false], s.added + [false])
    else if i > 0 && (j == 0 || Lcs(a, b, i - 1, j) >= Lcs(a, b, i, j - 1)) then
      var s := Backtrack(a, b, i - 1, j);
      Script(s.deleted + [true], s.added)
    else if j > 0 then
      var s := Backtrack(a, b, i, j - 1);
      Script(s.deleted, s.added + [true])
    else Script([], [])
  }

  /** The lines not marked, in order. */
  function Kept(lines: seq<Line>, marks: seq<bool>): seq<Line>
    requires |lines| == |marks|
  {
    if lines == [] then []
    else
      var n := |lines| - 1;
      Kept(lines[..n], marks[..n]) + if marks[n] then [] else [lines[n]]
  }

  /** A script is valid when what it keeps of both sides is the same. */
  predicate Valid(a: seq<Line>, b: seq<Line>, s: Script) {
    |s.deleted| == |a| && |s.added| == |b| && Kept(a, s.deleted) == Kept(b, s.added)
  }

  function Marks(marks: seq<bool>): nat {
    if marks == [] then 0 else Marks(marks[..|marks| - 1]) + if marks[|marks| - 1] then 1 else 0
  }

  lemma {:induction false} KeptLength(lines: seq<Line>, marks: seq<bool>)
    requires |lines| == |marks|
    ensures |Kept(lines, marks)| + Marks(marks) == |lines|
  {
    if lines != [] { KeptLength(lines[..|lines| - 1], marks[..|lines| - 1]); }
  }

  lemma {:induction false} LcsSteps(a: seq<Line>, b: seq<Line>, i: nat, j: nat)
    requires i <= |a| && j <= |b|
    ensures i > 0 ==> Lcs(a, b, i - 1, j) <= Lcs(a, b, i, j) <= Lcs(a, b, i - 1, j) + 1
    ensures j > 0 ==> Lcs(a, b, i, j - 1) <= Lcs(a, b, i, j) <= Lcs(a, b, i, j - 1) + 1
    ensures Lcs(a, b, i, j) <= Min(i, j)
    decreases i + j
  {
    if i > 0 { LcsSteps(a, b, i - 1, j); }
    if j > 0 { LcsSteps(a, b, i, j - 1); }
    if i > 0 && j > 0 { LcsSteps(a, b, i - 1, j - 1); }
  }

  lemma KeptSnoc(lines: seq<Line>, marks: seq<bool>, line: Line, mark: bool)
    requires |lines| == |marks|
    ensures Kept(lines + [line], marks + [mark]) == Kept(lines, marks) + if mark then [] else [line]
  {
    assert (lines + [line])[..|lines|] == lines && (marks + [mark])[..|marks|] == marks;
  }

  lemma NothingKept(lines: seq<Line>, marks: seq<bool>)
    requires lines == [] && marks == []
    ensures Kept(lines, marks) == []
  {}

  /** The backtrack keeps the same lines of both sides, as many as the table says. */
  lemma {:induction false} BacktrackIsValid(a: seq<Line>, b: seq<Line>, i: nat, j: nat)
    requires i <= |a| && j <= |b|
    ensures Valid(a[..i], b[..j], Backtrack(a, b, i, j))
    ensures |Kept(a[..i], Backtrack(a, b, i, j).deleted)| == Lcs(a, b, i, j)
    decreases i + j
  {
    hide Kept;
    if i > 0 { assert a[..i] == a[..i - 1] + [a[i - 1]]; }
    if j > 0 { assert b[..j] == b[..j - 1] + [b[j - 1]]; }
    if i > 0 && j > 0 && a[i - 1] == b[j - 1] {
      BacktrackIsValid(a, b, i - 1, j - 1);
      var t := Backtrack(a, b, i - 1, j - 1);
      KeptSnoc(a[..i - 1], t.deleted, a[i - 1], false);
      KeptSnoc(b[..j - 1], t.added, b[j - 1], false);
    } else if i > 0 && (j == 0 || Lcs(a, b, i - 1, j) >= Lcs(a, b, i, j - 1)) {
      BacktrackIsValid(a, b, i - 1, j);
      KeptSnoc(a[..i - 1], Backtrack(a, b, i - 1, j).deleted, a[i - 1], true);
    } else if j > 0 {
      BacktrackIsValid(a, b, i, j - 1);
      KeptSnoc(b[..j - 1], Backtrack(a, b, i, j - 1).added, b[j - 1], true);
    } else {
      NothingKept(a[..0], []);
    }
  }

  /** No valid script keeps more than the table says. */
  lemma {:induction false} NoneKeepsMore(a: seq<Line>, b: seq<Line>, i: nat, j: nat, s: Script)
    requires i <= |a| && j <= |b| && Valid(a[..i], b[..j], s)
    ensures |Kept(a[..i], s.deleted)| <= Lcs(a, b, i, j)
    decreases i + j
  {
    LcsSteps(a, b, i, j);
    if i > 0 { assert a[..i][..i - 1] == a[..i - 1]; }
    if j > 0 { assert b[..j][..j - 1] == b[..j - 1]; }
    if i == 0 || j == 0 {
    } else if s.deleted[i - 1] {
      NoneKeepsMore(a, b, i - 1, j, Script(s.deleted[..i - 1], s.added));
    } else if s.added[j - 1] {
      NoneKeepsMore(a, b, i, j - 1, Script(s.deleted, s.added[..j - 1]));
    } else {
      var x, y := Kept(a[..i - 1], s.deleted[..i - 1]), Kept(b[..j - 1], s.added[..j - 1]);
      assert Kept(a[..i], s.deleted) == x + [a[i - 1]] && Kept(b[..j], s.added) == y + [b[j - 1]];
      assert a[i - 1] == (x + [a[i - 1]])[|x|] && |x| == |y|;
      assert x == (x + [a[i - 1]])[..|x|] && y == (y + [b[j - 1]])[..|y|];
      NoneKeepsMore(a, b, i - 1, j - 1, Script(s.deleted[..i - 1], s.added[..j - 1]));
    }
  }

  /** The script of a whole diff. */
  function ScriptOf(a: seq<Line>, b: seq<Line>): Script { Backtrack(a, b, |a|, |b|) }

  /** The script is valid, and no valid script marks fewer lines on either side. */
  lemma ScriptIsShortest(a: seq<Line>, b: seq<Line>)
    ensures Valid(a, b, ScriptOf(a, b))
    ensures |Kept(a, ScriptOf(a, b).deleted)| == Lcs(a, b, |a|, |b|)
    ensures forall s: Script | Valid(a, b, s) ::
              Marks(ScriptOf(a, b).deleted) <= Marks(s.deleted) && Marks(ScriptOf(a, b).added) <= Marks(s.added)
  {
    assert a[..|a|] == a && b[..|b|] == b;
    var best := ScriptOf(a, b);
    BacktrackIsValid(a, b, |a|, |b|);
    KeptLength(a, best.deleted);
    KeptLength(b, best.added);
    forall s: Script | Valid(a, b, s)
      ensures Marks(best.deleted) <= Marks(s.deleted) && Marks(best.added) <= Marks(s.added)
    {
      NoneKeepsMore(a, b, |a|, |b|, s);
      KeptLength(a, s.deleted);
      KeptLength(b, s.added);
    }
  }

  lemma {:induction false} NoMarks(marks: seq<bool>)
    ensures Marks(marks) == 0 <==> forall k | 0 <= k < |marks| :: !marks[k]
  {
    if marks != [] {
      var n := |marks| - 1;
      NoMarks(marks[..n]);
      assert forall k | 0 <= k < n :: marks[..n][k] == marks[k];
    }
  }

  lemma {:induction false} AllKept(lines: seq<Line>, marks: seq<bool>)
    requires |lines| == |marks| && Marks(marks) == 0
    ensures Kept(lines, marks) == lines
  {
    if lines != [] {
      AllKept(lines[..|lines| - 1], marks[..|lines| - 1]);
    }
  }

  /** Equal sides get no mark, and only they. */
  lemma EqualIffUnmarked(a: seq<Line>, b: seq<Line>)
    ensures a == b <==>
              (forall k | 0 <= k < |a| :: !ScriptOf(a, b).deleted[k])
                  && (forall k | 0 <= k < |b| :: !ScriptOf(a, b).added[k])
  {
    var best := ScriptOf(a, b);
    ScriptIsShortest(a, b);
    NoMarks(best.deleted);
    NoMarks(best.added);
    if a == b {
      var none := seq(|a|, k => false);
      assert Valid(a, b, Script(none, none));
      NoMarks(none);
    } else if Marks(best.deleted) == 0 && Marks(best.added) == 0 {
      AllKept(a, best.deleted);
      AllKept(b, best.added);
    }
  }

  // ---- What the walk is to say

  /** How many of the first `k` lines are kept: which gap between kept lines `k` is in. */
  function Rank(marks: seq<bool>, k: nat): nat
    requires k <= |marks|
  {
    if k == 0 then 0 else Rank(marks, k - 1) + if marks[k - 1] then 0 else 1
  }

  /** The gap holds a marked line. */
  ghost predicate GapHolds(marks: seq<bool>, gap: nat) {
    exists i :: 0 <= i < |marks| && marks[i] && Rank(marks, i) == gap
  }

  /** A new line changed when it was added; it replaces lines when its gap lost some. */
  ghost function KindOf(s: Script, k: nat): LineKind
    requires k < |s.added|
  {
    if !s.added[k] then Same else if GapHolds(s.deleted, Rank(s.added, k)) then Modified else Added
  }

  /** Lines are gone just before new line `p`, and none took their place. */
  ghost predicate DeletedAt(s: Script, p: nat)
    requires p <= |s.added|
  {
    GapHolds(s.deleted, Rank(s.added, p)) && !GapHolds(s.added, Rank(s.added, p))
  }

  ghost predicate Describes(d: Diff, s: Script) {
    && |d.kinds| == |s.added| && |d.deletedBefore| == |s.added| + 1
    && (forall k | 0 <= k < |s.added| :: d.kinds[k] == KindOf(s, k))
    && (forall p | 0 <= p <= |s.added| :: d.deletedBefore[p] == DeletedAt(s, p))
  }

  lemma {:induction false} RankGrows(marks: seq<bool>, i: nat, j: nat)
    requires i <= j <= |marks|
    ensures Rank(marks, i) <= Rank(marks, j)
    ensures (exists x :: i <= x < j && !marks[x]) <==> Rank(marks, i) < Rank(marks, j)
    decreases j
  {
    if i < j { RankGrows(marks, i, j - 1); }
  }

  lemma {:induction false} RankOfPrefix(marks: seq<bool>, n: nat, k: nat)
    requires k <= n <= |marks|
    ensures Rank(marks[..n], k) == Rank(marks, k)
  {
    if k > 0 { RankOfPrefix(marks, n, k - 1); }
  }

  lemma {:induction false} KeptAt(lines: seq<Line>, marks: seq<bool>, k: nat)
    requires |lines| == |marks| && k <= |lines|
    ensures Rank(marks, k) <= |Kept(lines, marks)|
    ensures k == |lines| ==> Rank(marks, k) == |Kept(lines, marks)|
    ensures k < |lines| && !marks[k] ==>
              Rank(marks, k) < |Kept(lines, marks)| && Kept(lines, marks)[Rank(marks, k)] == lines[k]
  {
    if lines != [] {
      var n := |lines| - 1;
      RankOfPrefix(marks, n, Min(k, n));
      KeptAt(lines[..n], marks[..n], Min(k, n));
      if k == n + 1 { RankOfPrefix(marks, n, n); }
    }
  }

  // ---- The code

  method FillRow(a: seq<Line>, b: seq<Line>, dp: array2<int>, i: nat)
    requires dp.Length0 == |a| + 1 && dp.Length1 == |b| + 1 && 0 < i <= |a|
    requires forall x, y | x == i - 1 && 0 <= y <= |b| :: dp[x, y] == Lcs(a, b, x, y)
    requires dp[i, 0] == 0
    modifies dp
    ensures forall y | 0 <= y <= |b| :: dp[i, y] == Lcs(a, b, i, y)
    ensures forall x, y | 0 <= x <= |a| && 0 <= y <= |b| && x != i :: dp[x, y] == old(dp[x, y])
  {
    for j := 1 to |b| + 1
      invariant forall y | 0 <= y < j :: dp[i, y] == Lcs(a, b, i, y)
      invariant forall x, y | 0 <= x <= |a| && 0 <= y <= |b| && x != i :: dp[x, y] == old(dp[x, y])
    {
      dp[i, j] := if a[i - 1] == b[j - 1] then dp[i - 1, j - 1] + 1 else Max(dp[i - 1, j], dp[i, j - 1]);
    }
  }

  method LcsTable(a: seq<Line>, b: seq<Line>) returns (dp: array2<int>)
    requires |a| <= MAX_LINES && |b| <= MAX_LINES
    ensures dp.Length0 == |a| + 1 && dp.Length1 == |b| + 1
    ensures forall i, j | 0 <= i <= |a| && 0 <= j <= |b| :: dp[i, j] == Lcs(a, b, i, j) && dp[i, j] <= MAX_LINES
  {
    var m, n := |a|, |b|;
    dp := new int[m + 1, n + 1]((i, j) => 0);
    for i := 1 to m + 1
      invariant forall x, y | 0 <= x < i && 0 <= y <= n :: dp[x, y] == Lcs(a, b, x, y)
      invariant forall x, y | i <= x <= m && 0 <= y <= n :: dp[x, y] == 0
    {
      FillRow(a, b, dp, i);
    }
    forall i, j | 0 <= i <= m && 0 <= j <= n ensures dp[i, j] <= MAX_LINES {
      LcsSteps(a, b, i, j);
    }
  }

  /** Of the marks `all`, those from `i` on are set, and none before. */
  ghost predicate SetFrom(marks: seq<bool>, all: seq<bool>, i: nat) {
    && i <= |marks| == |all|
    && (forall k | 0 <= k < i :: !marks[k])
    && (forall k | i <= k < |all| :: marks[k] == all[k])
  }

  /** The backtrack has come to `i` and `j`, its marks set from there on. */
  ghost predicate BackAt(a: seq<Line>, b: seq<Line>, i: nat, j: nat, deleted: seq<bool>, added: seq<bool>) {
    var all := ScriptOf(a, b);
    && i <= |a| && j <= |b|
    && SetFrom(deleted, all.deleted, i) && SetFrom(added, all.added, j)
    && Backtrack(a, b, i, j) == Script(all.deleted[..i], all.added[..j])
  }

  lemma BackStarts(a: seq<Line>, b: seq<Line>, deleted: seq<bool>, added: seq<bool>)
    requires |deleted| == |a| && |added| == |b| && true !in deleted && true !in added
    ensures BackAt(a, b, |a|, |b|, deleted, added)
  {
    var all := ScriptOf(a, b);
    assert all.deleted[..|a|] == all.deleted && all.added[..|b|] == all.added;
    assert forall k | 0 <= k < |a| :: deleted[k] in deleted;
    assert forall k | 0 <= k < |b| :: added[k] in added;
  }

  /** The last marks of a prefix of the script, and what is before them. */
  lemma BacktrackLast(a: seq<Line>, b: seq<Line>, i: nat, j: nat, all: Script)
    requires i <= |a| && j <= |b| && i + j > 0 && |all.deleted| == |a| && |all.added| == |b|
    requires Backtrack(a, b, i, j) == Script(all.deleted[..i], all.added[..j])
    ensures
      if i > 0 && j > 0 && a[i - 1] == b[j - 1] then
        && !all.deleted[i - 1] && !all.added[j - 1]
        && Backtrack(a, b, i - 1, j - 1) == Script(all.deleted[..i - 1], all.added[..j - 1])
      else if i > 0 && (j == 0 || Lcs(a, b, i - 1, j) >= Lcs(a, b, i, j - 1)) then
        all.deleted[i - 1] && Backtrack(a, b, i - 1, j) == Script(all.deleted[..i - 1], all.added[..j])
      else
        all.added[j - 1] && Backtrack(a, b, i, j - 1) == Script(all.deleted[..i], all.added[..j - 1])
  {
    var s := Backtrack(a, b, i, j);
    if i > 0 {
      assert s.deleted[i - 1] == all.deleted[i - 1] && s.deleted[..i - 1] == all.deleted[..i - 1];
    }
    if j > 0 {
      assert s.added[j - 1] == all.added[j - 1] && s.added[..j - 1] == all.added[..j - 1];
    }
  }

  lemma BackGoes(a: seq<Line>, b: seq<Line>, i: nat, j: nat, deleted: seq<bool>, added: seq<bool>)
    requires BackAt(a, b, i, j, deleted, added) && i > 0 && j > 0
    ensures |deleted| == |a| && |added| == |b|
    ensures if a[i - 1] == b[j - 1] then BackAt(a, b, i - 1, j - 1, deleted, added)
            else if Lcs(a, b, i - 1, j) >= Lcs(a, b, i, j - 1)
                then BackAt(a, b, i - 1, j, deleted[i - 1 := true], added)
            else BackAt(a, b, i, j - 1, deleted, added[j - 1 := true])
  {
    hide Backtrack, Lcs;
    BacktrackLast(a, b, i, j, ScriptOf(a, b));
    hide ScriptOf;
  }

  lemma {:induction false} RestIsMarked(a: seq<Line>, b: seq<Line>, i: nat, j: nat)
    requires i <= |a| && j <= |b| && (i == 0 || j == 0)
    ensures forall k | 0 <= k < i :: Backtrack(a, b, i, j).deleted[k]
    ensures forall k | 0 <= k < j :: Backtrack(a, b, i, j).added[k]
    decreases i + j
  {
    if i > 0 {
      RestIsMarked(a, b, i - 1, j);
    } else if j > 0 {
      RestIsMarked(a, b, i, j - 1);
    }
  }

  /** With one side at its start, the rest of the other is all marked. */
  lemma BackEnds(a: seq<Line>, b: seq<Line>, i: nat, j: nat, deleted: seq<bool>, added: seq<bool>)
    requires BackAt(a, b, i, j, deleted, added) && (i == 0 || j == 0)
    ensures |deleted| == |a| == |ScriptOf(a, b).deleted| && |added| == |b| == |ScriptOf(a, b).added|
    ensures forall k | 0 <= k < |a| :: ScriptOf(a, b).deleted[k] == (k < i || deleted[k])
    ensures forall k | 0 <= k < |b| :: ScriptOf(a, b).added[k] == (k < j || added[k])
  {
    var all := ScriptOf(a, b);
    var rest := Backtrack(a, b, i, j);
    RestIsMarked(a, b, i, j);
    hide Backtrack;
    forall k | 0 <= k < i ensures all.deleted[k] { assert rest.deleted[k] == all.deleted[..i][k]; }
    forall k | 0 <= k < j ensures all.added[k] { assert rest.added[k] == all.added[..j][k]; }
  }

  /** What is left of one side is all marked. */
  method MarkRest(marks: array<bool>, from: nat)
    requires from <= marks.Length
    modifies marks
    ensures forall k | 0 <= k < marks.Length :: marks[k] == (k < from || old(marks[k]))
  {
    var i := from;
    while i > 0
      invariant 0 <= i <= from
      invariant forall k | 0 <= k < marks.Length :: marks[k] == (i <= k < from || old(marks[k]))
    {
      marks[i - 1] := true;
      i := i - 1;
    }
  }

  method BacktrackMarks(a: seq<Line>, b: seq<Line>, dp: array2<int>) returns (deleted: array<bool>, added: array<bool>)
    requires dp.Length0 == |a| + 1 && dp.Length1 == |b| + 1
    requires forall i, j | 0 <= i <= |a| && 0 <= j <= |b| :: dp[i, j] == Lcs(a, b, i, j)
    ensures fresh(deleted) && fresh(added)
    ensures deleted[..] == ScriptOf(a, b).deleted && added[..] == ScriptOf(a, b).added
  {
    hide ScriptOf, BackAt, Lcs;
    added := new bool[|b|](k => false);
    deleted := new bool[|a|](k => false);
    var i, j := |a|, |b|;
    BackStarts(a, b, deleted[..], added[..]);
    while i > 0 && j > 0
      invariant 0 <= i <= |a| && 0 <= j <= |b| && BackAt(a, b, i, j, deleted[..], added[..])
    {
      BackGoes(a, b, i, j, deleted[..], added[..]);
      if a[i - 1] == b[j - 1] {
        i, j := i - 1, j - 1;
      } else if dp[i - 1, j] >= dp[i, j - 1] {
        deleted[i - 1] := true;
        i := i - 1;
      } else {
        added[j - 1] := true;
        j := j - 1;
      }
    }
    BackEnds(a, b, i, j, deleted[..], added[..]);
    MarkRest(deleted, i);
    MarkRest(added, j);
  }

  /** Where the walk is: both sides have as many kept lines behind them, and of the
      gap they are in either nothing is behind (`ahead`) or all of it is. */
  ghost predicate InStep(s: Script, oi: nat, nj: nat, ahead: bool)
    requires oi <= |s.deleted| && nj <= |s.added|
  {
    && Rank(s.deleted, oi) == Rank(s.added, nj)
    && if ahead then
         && (forall i | 0 <= i < oi && s.deleted[i] :: Rank(s.deleted, i) != Rank(s.deleted, oi))
         && (forall k | 0 <= k < nj && s.added[k] :: Rank(s.added, k) != Rank(s.added, nj))
       else
         && (oi < |s.deleted| ==> !s.deleted[oi])
         && (nj < |s.added| ==> !s.added[nj])
  }

  /** What the walk has said so far. */
  ghost predicate SaidSoFar(s: Script, nj: nat, ahead: bool, kinds: seq<LineKind>, deletedBefore: seq<bool>)
    requires nj <= |s.added|
  {
    && |kinds| == |s.added| && |deletedBefore| == |s.added| + 1
    && (forall k | 0 <= k < nj :: kinds[k] == KindOf(s, k))
    && (forall k | nj <= k < |s.added| :: kinds[k] == Same)
    && (forall p | 0 <= p < nj :: deletedBefore[p] == DeletedAt(s, p))
    && (deletedBefore[nj] == (!ahead && DeletedAt(s, nj)))
    && (forall p | nj < p <= |s.added| :: !deletedBefore[p])
  }

  lemma MarkedRunRank(marks: seq<bool>, from: nat, to: nat)
    requires from <= to <= |marks|
    requires forall i | from <= i < to :: marks[i]
    requires to < |marks| ==> !marks[to]
    ensures forall k | from <= k <= to :: Rank(marks, k) == Rank(marks, from)
    ensures forall i | to < i < |marks| :: Rank(marks, i) != Rank(marks, from)
  {
    forall k | from <= k <= to ensures Rank(marks, k) == Rank(marks, from) {
      RankGrows(marks, from, k);
    }
    hide Rank;
    forall i | to < i < |marks| ensures Rank(marks, i) != Rank(marks, from) {
      RankGrows(marks, to, i);
    }
  }

  /** A run of marked lines from the start of its gap to its end is all its gap holds. */
  lemma MarkedRunGap(marks: seq<bool>, from: nat, to: nat)
    requires from <= to <= |marks|
    requires forall i | 0 <= i < from && marks[i] :: Rank(marks, i) != Rank(marks, from)
    requires forall i | from <= i < to :: marks[i]
    requires to < |marks| ==> !marks[to]
    ensures forall k | from <= k <= to :: Rank(marks, k) == Rank(marks, from)
    ensures GapHolds(marks, Rank(marks, from)) <==> from < to
  {
    hide Rank;
    MarkedRunRank(marks, from, to);
    if from < to { assert marks[from] && Rank(marks, from) == Rank(marks, from); }
  }

  /** From just ahead of a gap to just past it. */
  lemma GapPassed(s: Script, oi: nat, nj: nat, oi': nat, nj': nat)
    requires oi <= oi' <= |s.deleted| && nj <= nj' <= |s.added| && InStep(s, oi, nj, true)
    requires forall i | oi <= i < oi' :: s.deleted[i]
    requires forall k | nj <= k < nj' :: s.added[k]
    requires oi' < |s.deleted| ==> !s.deleted[oi']
    requires nj' < |s.added| ==> !s.added[nj']
    ensures InStep(s, oi', nj', false)
    ensures GapHolds(s.deleted, Rank(s.added, nj)) <==> oi < oi'
    ensures GapHolds(s.added, Rank(s.added, nj)) <==> nj < nj'
    ensures forall k | nj <= k <= nj' :: Rank(s.added, k) == Rank(s.added, nj)
  {
    MarkedRunGap(s.deleted, oi, oi');
    MarkedRunGap(s.added, nj, nj');
  }

  /** Past a gap, either both sides are at their end or both are on a kept line. */
  lemma PairOrEnd(a: seq<Line>, b: seq<Line>, s: Script, oi: nat, nj: nat)
    requires Valid(a, b, s) && oi <= |a| && nj <= |b| && InStep(s, oi, nj, false)
    ensures oi < |a| <==> nj < |b|
    ensures oi < |a| ==> a[oi] == b[nj]
  {
    KeptAt(a, s.deleted, oi);
    KeptAt(b, s.added, nj);
    KeptAt(a, s.deleted, |a|);
    KeptAt(b, s.added, |b|);
  }

  /** The pair of kept lines consumed, the walk is just ahead of the next gap. */
  lemma PairPassed(s: Script, oi: nat, nj: nat)
    requires oi < |s.deleted| && nj < |s.added| && InStep(s, oi, nj, false)
    ensures InStep(s, oi + 1, nj + 1, true)
  {
    forall i | 0 <= i < oi + 1 && s.deleted[i] ensures Rank(s.deleted, i) != Rank(s.deleted, oi + 1) {
      RankGrows(s.deleted, i, oi);
    }
    forall k | 0 <= k < nj + 1 && s.added[k] ensures Rank(s.added, k) != Rank(s.added, nj + 1) {
      RankGrows(s.added, k, nj);
    }
  }

  /** A hunk is told: a run of added lines by one kind, a pure deletion by its mark. */
  lemma HunkTold(
    s: Script, oi: nat, nj: nat, oi': nat, nj': nat,
    kinds: seq<LineKind>, deletedBefore: seq<bool>, kinds': seq<LineKind>, deletedBefore': seq<bool>)
    requires oi <= oi' <= |s.deleted| && nj <= nj' <= |s.added| && (oi < oi' || nj < nj')
    requires SaidSoFar(s, nj, true, kinds, deletedBefore)
    requires GapHolds(s.deleted, Rank(s.added, nj)) <==> oi < oi'
    requires GapHolds(s.added, Rank(s.added, nj)) <==> nj < nj'
    requires forall k | nj <= k <= nj' :: Rank(s.added, k) == Rank(s.added, nj)
    requires forall k | nj <= k < nj' :: s.added[k]
    requires |kinds'| == |kinds|
    requires forall k | 0 <= k < |kinds| ::
               kinds'[k] == if nj <= k < nj' then (if oi < oi' then Modified else LineKind.Added) else kinds[k]
    requires deletedBefore' == if nj < nj' then deletedBefore else deletedBefore[nj := true]
    ensures SaidSoFar(s, nj', false, kinds', deletedBefore')
  {
    forall p | nj <= p <= nj' ensures deletedBefore'[p] == DeletedAt(s, p) {
      assert Rank(s.added, p) == Rank(s.added, nj);
    }
    forall k | nj <= k < nj' ensures kinds'[k] == KindOf(s, k) {
      assert Rank(s.added, k) == Rank(s.added, nj);
    }
  }

  /** A kept line is told by saying nothing of it. */
  lemma PairTold(s: Script, nj: nat, ahead: bool, kinds: seq<LineKind>, deletedBefore: seq<bool>)
    requires nj < |s.added| && !s.added[nj] && SaidSoFar(s, nj, ahead, kinds, deletedBefore)
    requires ahead ==> !GapHolds(s.deleted, Rank(s.added, nj))
    ensures SaidSoFar(s, nj + 1, true, kinds, deletedBefore)
  {}

  /** The marks from `from` to `to` are all set, and no more after them. */
  ghost predicate IsRun(marks: seq<bool>, from: nat, to: nat) {
    from <= to <= |marks| && (forall k | from <= k < to :: marks[k]) && (to < |marks| ==> !marks[to])
  }

  /** Where the run of marks from `from` ends. */
  method RunEnd(marks: array<bool>, from: nat) returns (to: nat)
    requires from <= marks.Length
    ensures from <= to <= marks.Length && IsRun(marks[..], from, to)
  {
    to := from;
    while to < marks.Length && marks[to]
      invariant from <= to <= marks.Length
      invariant forall k | from <= k < to :: marks[k]
    {
      to := to + 1;
    }
  }

  /** `kinds'` is `kinds` with `kind` from `from` to `to`. */
  ghost predicate Painted(kinds: seq<LineKind>, from: nat, to: nat, kind: LineKind, kinds': seq<LineKind>) {
    |kinds'| == |kinds| && forall k | 0 <= k < |kinds| :: kinds'[k] == if from <= k < to then kind else kinds[k]
  }

  method SetKinds(kinds: array<LineKind>, from: nat, to: nat, kind: LineKind)
    requires from <= to <= kinds.Length
    modifies kinds
    ensures Painted(old(kinds[..]), from, to, kind, kinds[..])
  {
    for k := from to to
      invariant forall x | 0 <= x < kinds.Length :: kinds[x] == if from <= x < k then kind else old(kinds[x])
    {
      kinds[k] := kind;
    }
  }

  /** Marks a hunk: its new lines, or the place its old ones were. */
  method TellHunk(hunkStart: nat, nj: nat, deletes: bool, kinds: array<LineKind>, deletedBefore: array<bool>)
    requires hunkStart <= nj <= kinds.Length && deletedBefore.Length == kinds.Length + 1
    modifies kinds, deletedBefore
    ensures Painted(old(kinds[..]), hunkStart, nj, if deletes then Modified else LineKind.Added, kinds[..])
    ensures deletedBefore[..] == if hunkStart < nj then old(deletedBefore[..])
        else old(deletedBefore[..])[hunkStart := true]
  {
    if hunkStart < nj {
      SetKinds(kinds, hunkStart, nj, if deletes then Modified else LineKind.Added);
    } else {
      deletedBefore[hunkStart] := true;
    }
  }

  /** The walk is in step with the script, and has said what there is to say so far. */
  ghost predicate WalkAt(s: Script, oi: nat, nj: nat, ahead: bool, kinds: seq<LineKind>, deletedBefore: seq<bool>) {
    oi <= |s.deleted| && nj <= |s.added| && InStep(s, oi, nj, ahead) && SaidSoFar(s, nj, ahead, kinds, deletedBefore)
  }

  lemma WalkStarts(s: Script, kinds: seq<LineKind>, deletedBefore: seq<bool>)
    requires |kinds| == |s.added| && |deletedBefore| == |s.added| + 1
    requires (forall k | 0 <= k < |kinds| :: kinds[k] == Same)
        && forall p | 0 <= p < |deletedBefore| :: !deletedBefore[p]
    ensures WalkAt(s, 0, 0, true, kinds, deletedBefore)
  {}

  /** Past a hunk there are only kept lines, so a hunk is met from just ahead of it. */
  lemma AtKeptLines(s: Script, oi: nat, nj: nat)
    requires oi <= |s.deleted| && nj <= |s.added| && InStep(s, oi, nj, false)
    ensures (oi < |s.deleted| ==> !s.deleted[oi]) && (nj < |s.added| ==> !s.added[nj])
  {}

  lemma HunkPassed(
    s: Script, oi: nat, nj: nat, oi': nat, nj': nat, ahead: bool,
    kinds: seq<LineKind>, deletedBefore: seq<bool>, kinds': seq<LineKind>, deletedBefore': seq<bool>)
    requires WalkAt(s, oi, nj, ahead, kinds, deletedBefore)
    requires IsRun(s.deleted, oi, oi') && IsRun(s.added, nj, nj') && (nj < nj' || oi < oi')
    requires Painted(kinds, nj, nj', if oi < oi' then Modified else LineKind.Added, kinds')
    requires |deletedBefore| > nj && deletedBefore' == if nj < nj' then deletedBefore else deletedBefore[nj := true]
    ensures WalkAt(s, oi', nj', false, kinds', deletedBefore')
  {
    if !ahead { AtKeptLines(s, oi, nj); }
    hide Rank, GapHolds, InStep, SaidSoFar;
    GapPassed(s, oi, nj, oi', nj');
    HunkTold(s, oi, nj, oi', nj', kinds, deletedBefore, kinds', deletedBefore');
  }

  /** With no hunk here and a side not at its end, both sides are at one kept line. */
  lemma PairTaken(a: seq<Line>, b: seq<Line>, s: Script, oi: nat, nj: nat, ahead: bool,
                  kinds: seq<LineKind>, deletedBefore: seq<bool>)
    requires Valid(a, b, s) && WalkAt(s, oi, nj, ahead, kinds, deletedBefore)
    requires oi <= |a| && nj <= |b| && (oi < |a| || nj < |b|)
    requires IsRun(s.deleted, oi, oi) && IsRun(s.added, nj, nj)
    ensures oi < |a| && nj < |b| && a[oi] == b[nj]
    ensures WalkAt(s, oi + 1, nj + 1, true, kinds, deletedBefore)
  {
    hide Kept, GapHolds, Rank, SaidSoFar, InStep;
    if ahead { GapPassed(s, oi, nj, oi, nj); }
    PairOrEnd(a, b, s, oi, nj);
    PairPassed(s, oi, nj);
    PairTold(s, nj, ahead, kinds, deletedBefore);
  }

  lemma AllTold(s: Script, ahead: bool, oi: nat, kinds: seq<LineKind>, deletedBefore: seq<bool>)
    requires WalkAt(s, oi, |s.added|, ahead, kinds, deletedBefore) && oi == |s.deleted|
    ensures Describes(Diff(kinds, deletedBefore), s)
  {}

  /** The walk over the marks. `turns` counts its iterations. */
  method Walk(a: seq<Line>, b: seq<Line>, deleted: array<bool>, added: array<bool>) returns (d: Diff, ghost turns: nat)
    requires Valid(a, b, Script(deleted[..], added[..]))
    ensures Describes(d, Script(deleted[..], added[..]))
    ensures turns <= |a| + |b|
  {
    ghost var s := Script(deleted[..], added[..]);
    var m, n := |a|, |b|;
    var kinds := new LineKind[n](k => Same);
    var deletedBefore := new bool[n + 1](k => false);
    var oi, nj := 0, 0;
    ghost var ahead := true;
    turns := 0;
    hide WalkAt, Describes, IsRun, Painted;
    WalkStarts(s, kinds[..], deletedBefore[..]);
    while oi < m || nj < n
      invariant oi <= m && nj <= n && turns <= oi + nj
      invariant WalkAt(s, oi, nj, ahead, kinds[..], deletedBefore[..])
      invariant deleted[..] == s.deleted && added[..] == s.added
      decreases m - oi + n - nj
    {
      turns := turns + 1;
      var hunkStart, hunkOld := nj, oi;
      nj := RunEnd(added, nj);
      oi := RunEnd(deleted, oi);
      ghost var kindsBefore, marksBefore := kinds[..], deletedBefore[..];
      if hunkStart < nj || hunkOld < oi {
        TellHunk(hunkStart, nj, hunkOld < oi, kinds, deletedBefore);
        HunkPassed(s, hunkOld, hunkStart, oi, nj, ahead, kindsBefore, marksBefore, kinds[..], deletedBefore[..]);
        ahead := false;
      } else {
        PairTaken(a, b, s, oi, nj, ahead, kindsBefore, marksBefore);
        if oi < m { oi := oi + 1; }
        if nj < n { nj := nj + 1; }
        ahead := true;
      }
    }
    AllTold(s, ahead, oi, kinds[..], deletedBefore[..]);
    d := Diff(kinds[..], deletedBefore[..]);
  }

  method DiffLineKinds(oldLines: seq<Line>, newLines: seq<Line>) returns (d: Diff)
    ensures |oldLines| <= 5000 && |newLines| <= 5000 ==> Describes(d, ScriptOf(oldLines, newLines))
    ensures |oldLines| > 5000 || |newLines| > 5000 ==>
              d == Diff(seq(|newLines|, k => Same), seq(|newLines| + 1, k => false))
  {
    if |oldLines| > MAX_LINES || |newLines| > MAX_LINES {
      return Diff(seq(|newLines|, k => Same), seq(|newLines| + 1, k => false));
    }
    var dp := LcsTable(oldLines, newLines);
    var deleted, added := BacktrackMarks(oldLines, newLines, dp);
    ScriptIsShortest(oldLines, newLines);
    ghost var turns;
    d, turns := Walk(oldLines, newLines, deleted, added);
  }

  /** Some place has any rank up to the last one's. */
  lemma {:induction false} RankedAt(marks: seq<bool>, r: nat) returns (p: nat)
    requires r <= Rank(marks, |marks|)
    ensures p <= |marks| && Rank(marks, p) == r
    decreases |marks|
  {
    if Rank(marks, |marks|) == r {
      p := |marks|;
    } else {
      var n := |marks| - 1;
      RankOfPrefix(marks, n, n);
      p := RankedAt(marks[..n], r);
      RankOfPrefix(marks, n, p);
    }
  }

  /** Two sides get no decoration exactly when they are equal. */
  lemma EqualIffNothingSaid(a: seq<Line>, b: seq<Line>, d: Diff)
    requires Describes(d, ScriptOf(a, b))
    ensures a == b <==>
              (forall k | 0 <= k < |d.kinds| :: d.kinds[k] == Same)
                  && (forall p | 0 <= p < |d.deletedBefore| :: !d.deletedBefore[p])
  {
    var s := ScriptOf(a, b);
    EqualIffUnmarked(a, b);
    if a == b {
      forall p | 0 <= p <= |b| ensures !d.deletedBefore[p] {}
    } else if k :| 0 <= k < |b| && s.added[k] {
      assert d.kinds[k] != Same;
    } else {
      var i :| 0 <= i < |a| && s.deleted[i];
      ScriptIsShortest(a, b);
      KeptAt(a, s.deleted, i);
      KeptAt(b, s.added, |b|);
      var p := RankedAt(s.added, Rank(s.deleted, i));
      assert GapHolds(s.deleted, Rank(s.added, p));
      assert d.deletedBefore[p];
    }
  }
}
