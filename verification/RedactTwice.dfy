/**
 Redacting what was redacted: for which keys the second time changes nothing.
 */
module RedactTwice {
  import opened Basics
  import opened Redact

  const WORD := "redacted"

  /** Neither or both ends of the key are key characters. */
  predicate SameEnds(key: string)
    requires key != ""
  {
    IsKeyChar(key[0]) <==> IsKeyChar(key[|key| - 1])
  }

  /** At `i` the key has the mark's word, with as much of the mark around it as the key
      reaches, and past the mark no key character. */
  predicate ShowsAt(key: string, i: nat) {
    && IsAt(key, WORD, i)
    && (i > 0 ==> key[i - 1] == '[') && (i > 1 ==> !IsKeyChar(key[i - 2]))
    && (i + 8 < |key| ==> key[i + 8] == ']') && (i + 9 < |key| ==> !IsKeyChar(key[i + 9]))
  }

  /** A mark put into a text can complete the key. */
  ghost predicate Shows(key: string) { exists i: nat :: ShowsAt(key, i) }

  // ---- What redacting makes of a text, from one whole key to the next

  lemma IsAtIf(text: string, key: string, p: nat)
    requires p + |key| <= |text| && forall j | 0 <= j < |key| :: key[j] == text[p + j]
    ensures IsAt(text, key, p)
  {}

  /** `kept`, the mark, and `tail`. */
  function Marked(kept: string, tail: string): string { kept + REDACTED + tail }

  lemma MarkedAt(kept: string, tail: string, j: nat)
    requires j < |kept| + 10 + |tail|
    ensures |Marked(kept, tail)| == |kept| + 10 + |tail|
    ensures Marked(kept, tail)[j] == if j < |kept| then kept[j]
                                     else if j < |kept| + 10 then REDACTED[j - |kept|] else tail[j - |kept| - 10]
  {}

  lemma MarkReads(j: nat)
    requires j < 10
    ensures REDACTED[0] == '[' && REDACTED[9] == ']' && !IsKeyChar('[') && !IsKeyChar(']')
    ensures 1 <= j < 9 ==> REDACTED[j] == WORD[j - 1] && IsKeyChar(REDACTED[j])
  {}

  /** The first place from `rest` on that the key stands whole at, or the end. */
  ghost function FirstWhole(text: string, key: string, rest: nat): (c: nat)
    requires key != "" && rest <= |text|
    ensures rest <= c <= |text| && (c < |text| ==> IsWhole(text, key, c) && c + |key| <= |text|)
    ensures forall p: nat | rest <= p < c :: !IsWhole(text, key, p)
    decreases |text| - rest
  {
    if rest == |text| || IsWhole(text, key, rest) then rest else FirstWhole(text, key, rest + 1)
  }

  /** Up to the first whole key the text is kept; then comes the mark. */
  lemma FromFirst(text: string, key: string, rest: nat)
    requires key != "" && rest <= |text|
    ensures var c := FirstWhole(text, key, rest);
            && (c == |text| ==> RedactedFrom(text, key, rest) == text[rest..])
            && (c < |text| ==>
                  RedactedFrom(text, key, rest) == Marked(text[rest..c], RedactedFrom(text, key, c + |key|)))
  {
    hide RedactedFrom, FirstWhole, IsWhole;
    var c := FirstWhole(text, key, rest);
    FromNoWhole(text, key, rest, c);
    if c == |text| {
      FromEnd(text, key);
    } else {
      FromWholeHere(text, key, c);
      Joined(text[rest..c], REDACTED, "", RedactedFrom(text, key, c + |key|));
    }
  }

  /** At `rest` the text begins, or a whole key has just ended. */
  ghost predicate IsStart(text: string, key: string, rest: nat) {
    rest <= |text| && (rest == 0 || (rest >= |key| && IsWhole(text, key, rest - |key|)))
  }

  lemma WholeIsInside(out: string, key: string, s: nat)
    requires IsWhole(out, key, s)
    ensures s + |key| <= |out|
  {}

  lemma AfterWhole(text: string, key: string, c: nat, next: nat)
    requires key != "" && IsWhole(text, key, c) && c + |key| <= next <= |text|
    ensures var s := text[c + |key|..next]; s == "" || !IsKeyChar(s[0])
    ensures next == |text| ==> text[c + |key|..next] == text[c + |key|..]
  {}

  lemma MarkedFirst(kept: string, tail: string)
    requires kept == "" || !IsKeyChar(kept[0])
    ensures Marked(kept, tail) != "" && !IsKeyChar(Marked(kept, tail)[0])
  {
    MarkedAt(kept, tail, 0);
    MarkReads(0);
  }

  /** After a whole key nothing comes, or no key character. */
  lemma ClearAfter(text: string, key: string, c: nat)
    requires key != "" && IsWhole(text, key, c)
    ensures var rest := RedactedFrom(text, key, c + |key|); rest == "" || !IsKeyChar(rest[0])
  {
    WholeIsInside(text, key, c);
    hide RedactedFrom, FirstWhole, IsWhole, IsKeyChar, Marked;
    var end := c + |key|;
    var next := FirstWhole(text, key, end);
    AfterWhole(text, key, c, next);
    FromFirst(text, key, end);
    if next < |text| {
      var kept, more := text[end..next], RedactedFrom(text, key, next + |key|);
      MarkedFirst(kept, more);
      assert RedactedFrom(text, key, end) == Marked(kept, more);
    } else {
      assert RedactedFrom(text, key, end) == text[end..];
    }
  }

  // ---- What a whole key in the result tells

  lemma KeptIsAt(text: string, key: string, rest: nat, m: nat, out: string, s: nat)
    requires rest + m <= |text| && m <= |out| && forall j | 0 <= j < m :: out[j] == text[rest + j]
    requires IsAt(out, key, s) && s + |key| <= m
    ensures IsAt(text, key, rest + s)
  {
    forall j | 0 <= j < |key| ensures key[j] == text[rest + s + j] {
      CharAt(out, key, s, j);
      assert out[s + j] == text[rest + (s + j)];
    }
    IsAtIf(text, key, rest + s);
  }

  /** Clear of every mark, it was whole before. */
  lemma WholeInKept(text: string, key: string, rest: nat, c: nat, out: string, s: nat)
    requires key != "" && SameEnds(key) && IsStart(text, key, rest) && rest <= c <= |text|
    requires if c == |text| then |out| == c - rest else IsWhole(text, key, c)
    requires c - rest <= |out| && forall j | 0 <= j < c - rest :: out[j] == text[rest + j]
    requires IsWhole(out, key, s) && s + |key| <= c - rest
    ensures IsWhole(text, key, rest + s)
  {
    var n := |key|;
    KeptIsAt(text, key, rest, c - rest, out, s);
    if s == 0 && rest > 0 { CharAt(text, key, rest - n, n - 1); }
    if s + n == c - rest && c < |text| { CharAt(text, key, c, 0); }
    hide IsAt;
    assert s > 0 ==> out[s - 1] == text[rest + (s - 1)];
    assert s + n < c - rest ==> out[s + n] == text[rest + (s + n)];
  }

  /** The key's characters are what the mark and its surroundings have there. */
  lemma OverMark(kept: string, tail: string, key: string, s: nat, j: nat)
    requires IsAt(Marked(kept, tail), key, s) && j < |key|
    ensures s + j < |kept| + 10 + |tail|
    ensures key[j] == if s + j < |kept| then kept[s + j]
                      else if s + j < |kept| + 10 then REDACTED[s + j - |kept|] else tail[s + j - |kept| - 10]
  {
    CharAt(Marked(kept, tail), key, s, j);
    MarkedAt(kept, tail, s + j);
  }

  /** A whole key cannot begin or end inside the mark's word. */
  lemma SpansWord(kept: string, tail: string, key: string, s: nat)
    requires key != "" && IsWhole(Marked(kept, tail), key, s)
    requires s < |kept| + 10 && s + |key| > |kept|
    ensures s <= |kept| + 1 && |kept| + 9 <= s + |key|
  {
    var m, e := |kept|, s + |key|;
    MarkedAt(kept, tail, 0);
    hide Marked;
    if s > m + 1 {
      MarkedAt(kept, tail, s - 1);
      MarkReads(s - 1 - m);
    } else if e < m + 9 {
      MarkedAt(kept, tail, e);
      MarkReads(e - m);
    }
  }

  /** Over a mark, the key shows the mark's word. */
  lemma WholeOverMark(kept: string, tail: string, key: string, s: nat)
    requires key != "" && IsWhole(Marked(kept, tail), key, s)
    requires s < |kept| + 10 && s + |key| > |kept|
    requires kept == "" || !IsKeyChar(kept[|kept| - 1])
    requires tail == "" || !IsKeyChar(tail[0])
    ensures Shows(key)
  {
    hide Marked;
    SpansWord(kept, tail, key, s);
    var m, i := |kept|, |kept| + 1 - s;
    forall j | 0 <= j < 8 ensures WORD[j] == key[i + j] {
      OverMark(kept, tail, key, s, i + j);
      MarkReads(j + 1);
    }
    IsAtIf(key, WORD, i);
    MarkReads(0);
    if i > 0 { OverMark(kept, tail, key, s, i - 1); }
    if i > 1 { OverMark(kept, tail, key, s, i - 2); }
    if i + 8 < |key| { OverMark(kept, tail, key, s, i + 8); }
    if i + 9 < |key| { OverMark(kept, tail, key, s, i + 9); }
    assert ShowsAt(key, i);
  }

  /** Past a mark, it is whole in what is there. */
  lemma WholePastMark(kept: string, tail: string, key: string, s: nat)
    requires IsWhole(Marked(kept, tail), key, s) && s >= |kept| + 10
    ensures IsWhole(tail, key, s - (|kept| + 10))
  {
    var out, p := Marked(kept, tail), s - (|kept| + 10);
    assert out[|kept| + 10..] == tail;
    assert out[s..s + |key|] == out[|kept| + 10..][p..p + |key|];
  }

  lemma KeptAt(text: string, key: string, rest: nat)
    requires key != "" && rest <= |text|
    ensures var c, out := FirstWhole(text, key, rest), RedactedFrom(text, key, rest);
            && (if c == |text| then |out| == c - rest else IsWhole(text, key, c))
            && c - rest <= |out| && forall j | 0 <= j < c - rest :: out[j] == text[rest + j]
  {
    var c := FirstWhole(text, key, rest);
    FromFirst(text, key, rest);
    hide RedactedFrom, FirstWhole, IsWhole;
  }

  lemma IsStartAfter(text: string, key: string, c: nat)
    requires IsWhole(text, key, c)
    ensures IsStart(text, key, c + |key|)
  {}

  lemma ClearBefore(text: string, key: string, rest: nat, c: nat)
    requires rest <= c && IsWhole(text, key, c)
    ensures text[rest..c] == "" || !IsKeyChar(text[rest..c][c - rest - 1])
  {}

  /** With ends alike, a whole key is left only when the key shows the mark. */
  lemma {:induction false} WholeLeftShows(text: string, key: string, rest: nat, s: nat)
    requires key != "" && SameEnds(key) && IsStart(text, key, rest)
    requires IsWhole(RedactedFrom(text, key, rest), key, s)
    ensures Shows(key)
    decreases |text| - rest
  {
    hide RedactedFrom, FirstWhole, Shows, IsWhole, Marked;
    var c, out := FirstWhole(text, key, rest), RedactedFrom(text, key, rest);
    FromFirst(text, key, rest);
    if s + |key| <= c - rest {
      KeptAt(text, key, rest);
      WholeInKept(text, key, rest, c, out, s);
    } else {
      WholeIsInside(out, key, s);
      var kept, more := text[rest..c], RedactedFrom(text, key, c + |key|);
      if s < |kept| + 10 {
        ClearAfter(text, key, c);
        ClearBefore(text, key, rest, c);
        WholeOverMark(kept, more, key, s);
      } else {
        WholePastMark(kept, more, key, s);
        IsStartAfter(text, key, c);
        WholeLeftShows(text, key, c + |key|, s - (|kept| + 10));
      }
    }
  }

  // ---- Whether redacting changes a text

  /** With no whole key from `rest` on, the text is kept. */
  lemma KeptIfNone(text: string, key: string, rest: nat)
    requires key != "" && rest <= |text| && FirstWhole(text, key, rest) == |text|
    ensures RedactedFrom(text, key, rest) == text[rest..]
  {
    FromFirst(text, key, rest);
  }

  /** Each cut makes the text longer by as much as the mark is longer than the key. */
  lemma {:induction false} LengthFrom(text: string, key: string, rest: nat)
    requires key != "" && rest <= |text|
    ensures |key| <= 10 ==> |RedactedFrom(text, key, rest)| >= |text| - rest
    ensures |key| >= 10 ==> |RedactedFrom(text, key, rest)| <= |text| - rest
    decreases |text| - rest
  {
    var c := FirstWhole(text, key, rest);
    FromFirst(text, key, rest);
    hide RedactedFrom, FirstWhole;
    if c < |text| { LengthFrom(text, key, c + |key|); }
  }

  lemma SameSizeChanges(text: string, key: string, c: nat, tail: string)
    requires |key| == 10 && key != REDACTED && IsWhole(text, key, c)
    ensures Marked(text[0..c], tail) != text
  {
    var j :| 0 <= j < 10 && key[j] != REDACTED[j];
    MarkedAt(text[0..c], tail, c + j);
    CharAt(text, key, c, j);
  }

  lemma MarkedChanges(text: string, key: string, c: nat, tail: string)
    requires key != REDACTED && IsWhole(text, key, c) && c + |key| <= |text|
    requires |key| <= 10 ==> |tail| >= |text| - c - |key|
    requires |key| >= 10 ==> |tail| <= |text| - c - |key|
    ensures Marked(text[0..c], tail) != text
  {
    MarkedAt(text[0..c], tail, 0);
    hide Marked, IsWhole;
    if |key| == 10 { SameSizeChanges(text, key, c, tail); }
  }

  lemma FirstIsMet(text: string, key: string, p: nat)
    requires key != "" && IsWhole(text, key, p)
    ensures FirstWhole(text, key, 0) < |text| && p + |key| <= |text|
  {
    WholeIsInside(text, key, p);
    hide FirstWhole, IsWhole;
  }

  /** A whole key that is not the mark itself is a change. */
  lemma WholeChanges(text: string, key: string, p: nat)
    requires key != "" && key != REDACTED && IsWhole(text, key, p)
    ensures Redacted(text, key) != text
  {
    FirstIsMet(text, key, p);
    hide RedactedFrom, IsWhole, FirstWhole, Marked, REDACTED;
    var c := FirstWhole(text, key, 0);
    FromFirst(text, key, 0);
    LengthFrom(text, key, c + |key|);
    MarkedChanges(text, key, c, RedactedFrom(text, key, c + |key|));
  }

  lemma Refilled(text: string, rest: nat, c: nat, end: nat)
    requires rest <= c <= end <= |text|
    ensures text[rest..c] + text[c..end] + text[end..] == text[rest..]
  {}

  lemma {:induction false} MarkIsKept(text: string, key: string, rest: nat)
    requires key == REDACTED && rest <= |text|
    ensures key != "" && RedactedFrom(text, key, rest) == text[rest..]
    decreases |text| - rest
  {
    var c := FirstWhole(text, key, rest);
    FromFirst(text, key, rest);
    hide RedactedFrom, FirstWhole;
    if c < |text| {
      WholeIsInside(text, key, c);
      assert text[c..c + |key|] == key;
      hide IsWhole, IsAt;
      MarkIsKept(text, key, c + |key|);
      Refilled(text, rest, c, c + |key|);
    }
  }

  /** A text is kept as it is just when the key stands whole nowhere in it, or is the mark. */
  lemma KeptIff(text: string, key: string)
    requires key != ""
    ensures Redacted(text, key) == text <==> key == REDACTED || forall p: nat :: !IsWhole(text, key, p)
  {
    var c := FirstWhole(text, key, 0);
    assert text[0..] == text;
    if key == REDACTED {
      MarkIsKept(text, key, 0);
    } else if c < |text| {
      WholeChanges(text, key, c);
    } else {
      KeptIfNone(text, key, 0);
      assert forall p: nat | IsWhole(text, key, p) :: p < |text|;
    }
  }

  /** Redacting twice is redacting once just when the first time leaves no whole key. */
  lemma TwiceIffNoneLeft(text: string, key: string)
    requires key != "" && key != REDACTED
    ensures Redacted(Redacted(text, key), key) == Redacted(text, key)
            <==> forall p: nat :: !IsWhole(Redacted(text, key), key, p)
  {
    KeptIff(Redacted(text, key), key);
  }

  // ---- Keys for which a text is left with a whole key

  /** Beside a mark, at the text's end, everything is whole. */
  lemma BesideMark(kept: string, tail: string)
    ensures IsWhole(Marked(kept, tail), kept, 0) && IsWhole(Marked(kept, tail), tail, |kept| + 10)
  {
    var out := Marked(kept, tail);
    assert out[0..|kept|] == kept && out[|kept| + 10..|kept| + 10 + |tail|] == tail;
    MarkedAt(kept, tail, |kept|);
    MarkedAt(kept, tail, |kept| + 9);
    MarkReads(0);
  }

  lemma FirstIs(text: string, key: string, c: nat)
    requires key != "" && IsWhole(text, key, c) && forall p: nat | p < c :: !IsWhole(text, key, p)
    ensures FirstWhole(text, key, 0) == c
  {
    assert c < |text|;
  }

  /** With one cut, what is before it and after it is kept. */
  lemma CutOnce(text: string, key: string, c: nat)
    requires key != "" && c == FirstWhole(text, key, 0) < |text|
    requires FirstWhole(text, key, c + |key|) == |text|
    ensures Redacted(text, key) == Marked(text[0..c], text[c + |key|..])
  {
    hide RedactedFrom, FirstWhole, Marked, IsWhole;
    FromFirst(text, key, 0);
    FromFirst(text, key, c + |key|);
  }

  lemma NoneIfShort(text: string, key: string, rest: nat)
    requires key != "" && rest <= |text| < rest + |key|
    ensures FirstWhole(text, key, rest) == |text|
  {}

  lemma UnlikeEndsAtEnd(key: string)
    requires key != "" && !SameEnds(key) && IsKeyChar(key[0])
    ensures Redacted(key + key, key) == Marked(key, "")
  {
    var text, n := key + key, |key|;
    assert text[0..n] == key && text[n..n + n] == key;
    forall p: nat | p < n ensures !IsWhole(text, key, p) {
      CharAt(text, key, p, 0);
      assert text[p + n] == key[p] == text[p];
    }
    FirstIs(text, key, n);
    NoneIfShort(text, key, n + n);
    CutOnce(text, key, n);
    hide FirstWhole, IsWhole, Redacted, Marked;
    assert text[n + n..] == "";
  }

  lemma UnlikeEndsAtStart(key: string)
    requires key != "" && !SameEnds(key) && !IsKeyChar(key[0])
    ensures Redacted(key + key, key) == Marked("", key)
  {
    var text, n := key + key, |key|;
    assert text[0..n] == key && text[n..] == key;
    FirstIs(text, key, 0);
    assert text[n - 1] == key[n - 1];
    assert FirstWhole(text, key, n) == |text| by { assert !IsWhole(text, key, n); }
    CutOnce(text, key, 0);
  }

  /** With ends unlike, the key twice over: one of the two is cut, and the mark's
      bracket makes the other whole. */
  lemma UnlikeEndsLeaveOne(key: string)
    requires key != "" && !SameEnds(key)
    ensures exists p: nat :: IsWhole(Redacted(key + key, key), key, p)
  {
    if IsKeyChar(key[0]) {
      UnlikeEndsAtEnd(key);
      BesideMark(key, "");
      assert IsWhole(Redacted(key + key, key), key, 0);
    } else {
      UnlikeEndsAtStart(key);
      BesideMark("", key);
      assert IsWhole(Redacted(key + key, key), key, 10);
    }
  }

  /** What of the key is before a mark that shows in it at `i`, and after. */
  function Lead(key: string, i: nat): string
    requires i <= |key|
  {
    if i == 0 then "" else key[..i - 1]
  }

  function Trail(key: string, i: nat): string { if i + 9 < |key| then key[i + 9..] else "" }

  /** The key between the rest of it, so that redacting it leaves the key again. */
  function Around(key: string, i: nat): string
    requires i <= |key|
  {
    Lead(key, i) + key + Trail(key, i)
  }

  lemma AroundAt(key: string, i: nat, j: nat)
    requires i <= |key| && j < |Around(key, i)|
    ensures j < |Lead(key, i)| ==> Around(key, i)[j] == key[j]
    ensures |Lead(key, i)| <= j < |Lead(key, i)| + |key| ==> Around(key, i)[j] == key[j - |Lead(key, i)|]
  {}

  lemma AroundSize(key: string, i: nat)
    requires i <= |key|
    ensures |Lead(key, i)| == (if i == 0 then 0 else i - 1) && |Around(key, i)| >= |Lead(key, i)| + |key|
  {}

  lemma ShownIsWhole(key: string, i: nat)
    requires ShowsAt(key, i)
    ensures IsWhole(Around(key, i), key, |Lead(key, i)|)
  {
    assert Around(key, i)[|Lead(key, i)|..|Lead(key, i)| + |key|] == key;
  }

  lemma AroundParts(key: string, i: nat)
    requires ShowsAt(key, i)
    ensures var lead, trail, text := Lead(key, i), Trail(key, i), Around(key, i);
            && |text| == |lead| + |key| + |trail| && |trail| < |key| && IsWhole(text, key, |lead|)
            && text[0..|lead|] == lead && text[|lead| + |key|..] == trail
  {
    ShownIsWhole(key, i);
  }

  lemma ShownRedacted(key: string, i: nat)
    requires ShowsAt(key, i) && FirstWhole(Around(key, i), key, 0) == |Lead(key, i)|
    ensures Redacted(Around(key, i), key) == Marked(Lead(key, i), Trail(key, i))
  {
    var lead, trail := Lead(key, i), Trail(key, i);
    var text, end := Around(key, i), |lead| + |key|;
    AroundParts(key, i);
    NoneIfShort(text, key, end);
    CutOnce(text, key, |lead|);
    hide FirstWhole, Redacted, ShowsAt, Around, Lead, Trail, Marked;
  }

  lemma LeadAndTrail(key: string, i: nat)
    requires i <= |key|
    ensures |Lead(key, i)| == (if i == 0 then 0 else i - 1)
    ensures |Trail(key, i)| == if i + 9 < |key| then |key| - i - 9 else 0
    ensures forall j | 0 <= j < |Lead(key, i)| :: Lead(key, i)[j] == key[j]
    ensures forall j | 0 <= j < |Trail(key, i)| :: Trail(key, i)[j] == key[i + 9 + j]
  {}

  /** The key's characters are back, the mark's word at `i` from the mark. */
  lemma BackAt(key: string, i: nat, j: nat)
    requires ShowsAt(key, i) && j < |key|
    ensures var lead, trail, at := Lead(key, i), Trail(key, i), if i == 0 then j + 1 else j;
            at < |lead| + 10 + |trail| && key[j] == Marked(lead, trail)[at]
  {
    var lead, trail, at := Lead(key, i), Trail(key, i), if i == 0 then j + 1 else j;
    LeadAndTrail(key, i);
    hide Lead, Trail, Marked;
    MarkedAt(lead, trail, at);
    if i <= j < i + 8 {
      CharAt(key, WORD, i, j - i);
      MarkReads(j - i + 1);
    } else {
      MarkReads(0);
    }
  }

  lemma ShownIsBack(key: string, i: nat)
    requires ShowsAt(key, i)
    ensures IsWhole(Marked(Lead(key, i), Trail(key, i)), key, if i == 0 then 1 else 0)
  {
    var lead, trail, p := Lead(key, i), Trail(key, i), if i == 0 then 1 else 0;
    var out := Marked(lead, trail);
    LeadAndTrail(key, i);
    MarkedAt(lead, trail, 0);
    MarkReads(0);
    hide Lead, Trail, Marked;
    forall j | 0 <= j < |key| ensures key[j] == out[p + j] { BackAt(key, i, j); }
    BackAt(key, i, |key| - 1);
    IsAtIf(out, key, p);
    hide IsAt;
    if p + |key| < |out| { MarkedAt(lead, trail, p + |key|); }
  }

  /** Two overlapping places of the key, the second inside `Around`. */
  lemma Overlapping(key: string, i: nat, p: nat, j: nat)
    requires i <= |key| && IsAt(Around(key, i), key, p) && p < |Lead(key, i)| && j < |key|
    ensures var d := |Lead(key, i)| - p; key[j] == if j < d then key[p + j] else key[j - d]
  {
    AroundSize(key, i);
    hide Around, Lead, Trail;
    CharAt(Around(key, i), key, p, j);
    AroundAt(key, i, p + j);
  }

  lemma WordShown(key: string, i: nat, j: nat)
    requires ShowsAt(key, i) && j < 8
    ensures i + 8 <= |key| && key[i + j] == WORD[j]
  {
    CharAt(key, WORD, i, j);
  }

  lemma WordBeforeAt(key: string, i: nat, p: nat, j: nat)
    requires ShowsAt(key, i) && IsAt(Around(key, i), key, p) && p < |Lead(key, i)| && j < 8
    ensures p + 9 <= |key| && WORD[j] == key[p + 1 + j]
  {
    AroundSize(key, i);
    WordShown(key, i, j);
    hide Around, Lead, Trail, IsAt, ShowsAt;
    Overlapping(key, i, p, i + j);
  }

  lemma WordBefore(key: string, i: nat, p: nat)
    requires ShowsAt(key, i) && IsAt(Around(key, i), key, p) && p < |Lead(key, i)|
    ensures IsAt(key, WORD, p + 1)
  {
    hide IsAt, ShowsAt;
    WordBeforeAt(key, i, p, 0);
    forall j | 0 <= j < 8 ensures WORD[j] == key[p + 1 + j] { WordBeforeAt(key, i, p, j); }
    IsAtIf(key, WORD, p + 1);
  }

  lemma BracketFirst(key: string, i: nat, p: nat)
    requires ShowsAt(key, i) && IsAt(Around(key, i), key, p) && p < |Lead(key, i)|
    ensures key[0] == '['
  {
    AroundSize(key, i);
    hide Around, Lead, Trail;
    Overlapping(key, i, p, 0);
    Overlapping(key, i, p, i - 1);
  }

  /** A key that begins with the bracket does not end with the mark's word. */
  lemma EndsPastWord(key: string, i: nat)
    requires ShowsAt(key, i) && SameEnds(key) && key[0] == '['
    ensures i + 8 < |key|
  {
    CharAt(key, WORD, i, 7);
  }

  /** A whole key before that one overlaps it, so the mark shows in the key earlier too. */
  lemma ShowsBefore(key: string, i: nat, p: nat) returns (before: nat)
    requires ShowsAt(key, i) && SameEnds(key) && IsWhole(Around(key, i), key, p) && p < |Lead(key, i)|
    ensures before < i && ShowsAt(key, before)
  {
    AroundSize(key, i);
    before := p + 1;
    BracketFirst(key, i, p);
    EndsPastWord(key, i);
    WordBefore(key, i, p);
    hide IsAt, Around, Lead, Trail, WORD, IsKeyChar;
    Overlapping(key, i, p, i - 1);
    if before > 1 { Overlapping(key, i, p, i - 2); }
    Overlapping(key, i, p, i + 8);
    if i + 9 < |key| { Overlapping(key, i, p, i + 9); } else { AroundAt(key, i, p + |key|); }
  }

  /** With ends alike, a key that shows the mark is left in some text: around the first
      place it shows at, the key is cut and the mark completes it again. */
  lemma {:induction false} ShownLeavesOne(key: string, i: nat) returns (text: string)
    requires key != REDACTED && ShowsAt(key, i) && SameEnds(key)
    ensures exists p: nat :: IsWhole(Redacted(text, key), key, p)
    decreases i
  {
    ShownIsWhole(key, i);
    var c := FirstWhole(Around(key, i), key, 0);
    if c < |Lead(key, i)| {
      var before := ShowsBefore(key, i, c);
      text := ShownLeavesOne(key, before);
    } else {
      text := Around(key, i);
      ShownRedacted(key, i);
      ShownIsBack(key, i);
    }
  }

  // ---- The keys

  lemma NoneLeft(text: string, key: string)
    requires key != "" && key != REDACTED && SameEnds(key) && !Shows(key)
    ensures Redacted(Redacted(text, key), key) == Redacted(text, key)
  {
    forall p: nat ensures !IsWhole(Redacted(text, key), key, p) {
      if IsWhole(Redacted(text, key), key, p) { WholeLeftShows(text, key, 0, p); }
    }
    TwiceIffNoneLeft(text, key);
  }

  /** Redacting twice is redacting once, whatever the text, just when the key is the
      mark itself, or both its ends or neither are key characters and it does not show
      the mark. */
  lemma RedactingTwiceKeepsIff(key: string)
    requires key != ""
    ensures (forall text :: Redacted(Redacted(text, key), key) == Redacted(text, key))
            <==> key == REDACTED || (SameEnds(key) && !Shows(key))
  {
    if key == REDACTED {
      forall text ensures Redacted(Redacted(text, key), key) == Redacted(text, key) {
        KeptIff(text, key);
      }
    } else if !SameEnds(key) {
      UnlikeEndsLeaveOne(key);
      TwiceIffNoneLeft(key + key, key);
    } else if i: nat :| ShowsAt(key, i) {
      var text := ShownLeavesOne(key, i);
      TwiceIffNoneLeft(text, key);
    } else {
      forall text ensures Redacted(Redacted(text, key), key) == Redacted(text, key) {
        NoneLeft(text, key);
      }
    }
  }

  /** For a key without the word `redacted` in it, only the ends matter. */
  lemma WithoutTheWordIff(key: string)
    requires key != "" && forall i: nat :: !IsAt(key, WORD, i)
    ensures (forall text :: Redacted(Redacted(text, key), key) == Redacted(text, key)) <==> SameEnds(key)
  {
    RedactingTwiceKeepsIff(key);
    assert key == REDACTED ==> IsAt(key, WORD, 1) by { assert REDACTED[1..9] == WORD; }
  }

  lemma NoneInMark(key: string)
    requires key == "a="
    ensures FirstWhole(Marked(key, ""), key, 2) == 12
  {
    var once := Marked(key, "");
    MarkedAt(key, "", 0);
    forall p: nat | 2 <= p ensures !IsWhole(once, key, p) {
      CharAt(once, key, p, 1);
      if p + 1 < 12 { MarkedAt(key, "", p + 1); }
    }
  }

  lemma PaddedTwice(key: string)
    requires key == "a="
    ensures Redacted(Marked(key, ""), key) == Marked("", REDACTED)
  {
    var once, mark := Marked(key, ""), REDACTED;
    assert once[2..] == mark && once[0..0] == "";
    BesideMark(key, "");
    NoneInMark(key);
    hide Marked, FirstWhole, RedactedFrom, IsWhole;
    FirstIs(once, key, 0);
    CutOnce(once, key, 0);
  }

  /** A key that ends in a character no key has: what is left before a mark is whole. */
  lemma PaddedKeyIsLeft()
    ensures Redacted("a=a=", "a=") == "a=[redacted]"
    ensures Redacted("a=[redacted]", "a=") == "[redacted][redacted]"
  {
    var key := "a=";
    UnlikeEndsAtEnd(key);
    PaddedTwice(key);
    hide Redacted;
    assert "a=a=" == key + key && "a=[redacted]" == Marked(key, "");
    assert "[redacted][redacted]" == Marked("", REDACTED);
  }

  lemma WordShowsOnlyItself(key: string)
    requires key != "" && AllKeyChars(key) && key != WORD
    ensures SameEnds(key) && !Shows(key) && key != REDACTED
  {
    assert |key| == 8 ==> key[0..8] == key;
    assert forall i: nat | i < |key| :: key[i] != '[' && key[i] != ']';
  }

  lemma WordInMark(kept: string, tail: string, word: string)
    requires word == WORD
    ensures IsWhole(Marked(kept, tail), word, |kept| + 1)
  {
    var out, c := Marked(kept, tail), |kept|;
    MarkedAt(kept, tail, c);
    MarkedAt(kept, tail, c + 9);
    MarkReads(0);
    hide Marked;
    forall j | 0 <= j < 8 ensures word[j] == out[c + 1 + j] {
      MarkedAt(kept, tail, c + 1 + j);
      MarkReads(j + 1);
    }
    IsAtIf(out, word, c + 1);
  }

  lemma WordIsLeft(text: string, key: string, c: nat)
    requires key == WORD && c == FirstWhole(text, key, 0) && c < |text|
    ensures IsWhole(Redacted(text, key), key, c + 1)
  {
    hide RedactedFrom, FirstWhole, Marked, IsWhole;
    FromFirst(text, key, 0);
    var kept, more := text[0..c], RedactedFrom(text, key, c + 8);
    assert Redacted(text, key) == Marked(kept, more);
    WordInMark(kept, more, key);
  }

  /** For a key of key characters, text by text: unless the key is the mark's word and
      stands whole in the text. */
  lemma RedactingTwiceIff(text: string, key: string)
    requires key != "" && AllKeyChars(key)
    ensures Redacted(Redacted(text, key), key) == Redacted(text, key)
            <==> key != WORD || forall p: nat :: !IsWhole(text, key, p)
  {
    if key != WORD {
      WordShowsOnlyItself(key);
      NoneLeft(text, key);
    } else {
      KeptIff(text, key);
      TwiceIffNoneLeft(text, key);
      var c := FirstWhole(text, key, 0);
      if c < |text| { WordIsLeft(text, key, c); }
      assert c == |text| ==> forall p: nat | IsWhole(text, key, p) :: p < c;
    }
  }
}
