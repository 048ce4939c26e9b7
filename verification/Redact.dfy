/**
 Taking a key out of a text wherever it stands whole. Texts are sequences of
 characters; the original steps over the bytes of their UTF-8, at the same places.
 */
module Redact {
  import opened Basics

  predicate IsKeyChar(c: char) {
    'a' <= c <= 'z' || 'A' <= c <= 'Z' || '0' <= c <= '9' || c == '_' || c == '-'
  }

  /** The characters of keys: ASCII letters and digits, `_` and `-`. */
  lemma KeyCharsAre(c: char)
    ensures IsKeyChar(c) <==> c in LOWER || c in UPPER || c in DIGITS || c == '_' || c == '-'
  {
    AsciiAre(c);
    hide LOWER, UPPER, DIGITS;
  }

  const REDACTED := "[redacted]"

  /** `key` is at place `p` of `text`. */
  predicate IsAt(text: string, key: string, p: nat) { p + |key| <= |text| && text[p..p + |key|] == key }

  /** The characters around what is at `p` cannot be part of a key. */
  predicate Bounded(text: string, p: nat, end: nat)
    requires p <= end <= |text|
  {
    (p == 0 || !IsKeyChar(text[p - 1])) && (end == |text| || !IsKeyChar(text[end]))
  }

  /** `key` stands whole at place `p`. */
  predicate IsWhole(text: string, key: string, p: nat) { IsAt(text, key, p) && Bounded(text, p, p + |key|) }

  /** The first place of `key` at `from` or after. */
  function Next(text: string, key: string, from: nat): (p: Option<nat>)
    ensures p.Some? ==> from <= p.value && IsAt(text, key, p.value)
    ensures p.Some? ==> forall q | from <= q < p.value :: !IsAt(text, key, q)
    ensures p.None? ==> forall q | from <= q :: !IsAt(text, key, q)
    decreases |text| - from
  {
    if from + |key| > |text| then None
    else if IsAt(text, key, from) then Some(from)
    else Next(text, key, from + 1)
  }

  /** The places the loop takes the key out at, from `rest` on. */
  function Cuts(text: string, key: string, rest: nat): seq<nat>
    requires key != "" && rest <= |text|
    decreases |text| - rest
  {
    match Next(text, key, rest)
    case None => []
    case Some(p) => if IsWhole(text, key, p) then [p] + Cuts(text, key, p + |key|) else Cuts(text, key, p + 1)
  }

  /** From `rest` on, places in a row that do not overlap. */
  ghost predicate Apart(text: string, key: string, cuts: seq<nat>, rest: nat) {
    && (forall i | 0 <= i < |cuts| :: rest <= cuts[i] && cuts[i] + |key| <= |text|)
    && (forall i, j | 0 <= i < j < |cuts| :: cuts[i] + |key| <= cuts[j])
  }

  lemma ApartNone(text: string, key: string, rest: nat)
    ensures Apart(text, key, [], rest)
  {}

  lemma ApartRest(text: string, key: string, cuts: seq<nat>, rest: nat)
    requires cuts != [] && Apart(text, key, cuts, rest)
    ensures Apart(text, key, cuts[1..], cuts[0] + |key|)
  {}

  lemma ApartFrom(text: string, key: string, cuts: seq<nat>, rest: nat, p: nat)
    requires rest <= p && p + |key| <= |text| && Apart(text, key, cuts, p + |key|)
    ensures Apart(text, key, [p] + cuts, rest)
  {}

  lemma ApartEarlier(text: string, key: string, cuts: seq<nat>, rest: nat, to: nat)
    requires rest <= to && Apart(text, key, cuts, to)
    ensures Apart(text, key, cuts, rest)
  {}

  /** `text` from `rest` on with the mark for the key at each of `cuts`. */
  ghost function Replaced(text: string, key: string, cuts: seq<nat>, rest: nat): string
    requires rest <= |text| && Apart(text, key, cuts, rest)
    decreases |cuts|
  {
    if cuts == [] then text[rest..]
    else
      ApartRest(text, key, cuts, rest);
      text[rest..cuts[0]] + REDACTED + Replaced(text, key, cuts[1..], cuts[0] + |key|)
  }

  /** The places cut do not overlap. */
  lemma {:induction false} CutsAreApart(text: string, key: string, rest: nat)
    requires key != "" && rest <= |text|
    ensures Apart(text, key, Cuts(text, key, rest), rest)
    decreases |text| - rest
  {
    hide Apart, Bounded, Next;
    match Next(text, key, rest)
    case None => ApartNone(text, key, rest);
    case Some(p) =>
      if IsWhole(text, key, p) {
        CutsAreApart(text, key, p + |key|);
        ApartFrom(text, key, Cuts(text, key, p + |key|), rest, p);
      } else {
        CutsAreApart(text, key, p + 1);
        ApartEarlier(text, key, Cuts(text, key, p + 1), rest, p + 1);
      }
  }

  /** The key stands whole at each place cut. */
  lemma {:induction false} CutsAreWhole(text: string, key: string, rest: nat, c: nat)
    requires key != "" && rest <= |text| && c in Cuts(text, key, rest)
    ensures IsWhole(text, key, c)
    decreases |text| - rest
  {
    hide Bounded, Next;
    var p := Next(text, key, rest).value;
    if !IsWhole(text, key, p) {
      CutsAreWhole(text, key, p + 1, c);
    } else if c != p {
      CutsAreWhole(text, key, p + |key|, c);
    }
  }

  lemma {:induction false} NextIsBefore(text: string, key: string, rest: nat, p: nat)
    requires rest <= p && IsAt(text, key, p)
    ensures Next(text, key, rest).Some? && Next(text, key, rest).value <= p
    decreases p - rest
  {
    if rest < p { NextIsBefore(text, key, rest + 1, p); }
  }

  /** Every place the key stands whole is cut, or overlaps one cut before it. */
  lemma {:induction false} EveryWholeIsMet(text: string, key: string, rest: nat, p: nat)
    requires key != "" && rest <= p && IsWhole(text, key, p)
    ensures exists c :: c in Cuts(text, key, rest) && c <= p < c + |key|
    decreases |text| - rest
  {
    hide Bounded, Next;
    NextIsBefore(text, key, rest, p);
    var q := Next(text, key, rest).value;
    if !IsWhole(text, key, q) {
      EveryWholeIsMet(text, key, q + 1, p);
      assert Cuts(text, key, rest) == Cuts(text, key, q + 1);
    } else if p < q + |key| {
      var cuts := Cuts(text, key, rest);
      assert cuts == [q] + Cuts(text, key, q + |key|) && cuts[0] == q;
      assert q in cuts && q <= p < q + |key|;
    } else {
      EveryWholeIsMet(text, key, q + |key|, p);
      var c :| c in Cuts(text, key, q + |key|) && c <= p < c + |key|;
      assert c in Cuts(text, key, rest);
    }
  }

  /** What is left from `rest` on comes out as this. */
  ghost function RedactedFrom(text: string, key: string, rest: nat): string
    requires key != "" && rest <= |text|
  {
    CutsAreApart(text, key, rest);
    Replaced(text, key, Cuts(text, key, rest), rest)
  }

  /** The text with the mark in place of the key at each place cut. */
  ghost function Redacted(text: string, key: string): string
    requires key != ""
  {
    RedactedFrom(text, key, 0)
  }

  lemma ApartFirst(text: string, key: string, cuts: seq<nat>, rest: nat)
    requires cuts != [] && Apart(text, key, cuts, rest)
    ensures rest <= cuts[0] && cuts[0] + |key| <= |text|
  {}

  lemma Joined(a: string, b: string, c: string, d: string)
    ensures a + (b + c + d) == a + b + c + d
    ensures a + (b + d) == a + b + d
  {}

  /** Text with no cut in it is kept as it is. */
  lemma ReplacedOn(text: string, key: string, cuts: seq<nat>, rest: nat, to: nat)
    requires rest <= to <= |text| && Apart(text, key, cuts, to)
    ensures Apart(text, key, cuts, rest)
    ensures Replaced(text, key, cuts, rest) == text[rest..to] + Replaced(text, key, cuts, to)
  {
    ApartEarlier(text, key, cuts, rest, to);
    hide Apart;
    if cuts == [] {
      assert text[rest..] == text[rest..to] + text[to..];
    } else {
      ApartFirst(text, key, cuts, to);
      ApartRest(text, key, cuts, to);
      assert text[rest..cuts[0]] == text[rest..to] + text[to..cuts[0]];
      Joined(text[rest..to], text[to..cuts[0]], REDACTED, Replaced(text, key, cuts[1..], cuts[0] + |key|));
    }
  }

  lemma FromNone(text: string, key: string, rest: nat)
    requires key != "" && rest <= |text| && Next(text, key, rest).None?
    ensures RedactedFrom(text, key, rest) == text[rest..]
  {
    hide Next, Apart;
  }

  lemma FromWhole(text: string, key: string, rest: nat, p: nat)
    requires key != "" && rest <= |text| && Next(text, key, rest) == Some(p) && IsWhole(text, key, p)
    ensures RedactedFrom(text, key, rest) == text[rest..p] + REDACTED + RedactedFrom(text, key, p + |key|)
  {
    hide Next, Apart, Bounded;
    var cuts := Cuts(text, key, rest);
    CutsAreApart(text, key, rest);
    assert cuts[1..] == Cuts(text, key, p + |key|);
  }

  lemma FromPart(text: string, key: string, rest: nat, p: nat)
    requires key != "" && rest <= |text| && Next(text, key, rest) == Some(p) && !IsWhole(text, key, p)
    ensures RedactedFrom(text, key, rest) == text[rest..p + 1] + RedactedFrom(text, key, p + 1)
  {
    hide Next, Apart, Bounded, Replaced;
    CutsAreApart(text, key, p + 1);
    ReplacedOn(text, key, Cuts(text, key, p + 1), rest, p + 1);
  }

  // ---- The code

  method Find(text: string, key: string, from: nat) returns (p: Option<nat>)
    requires from <= |text|
    ensures p == Next(text, key, from)
  {
    var i := from;
    while i + |key| <= |text|
      invariant from <= i && Next(text, key, i) == Next(text, key, from)
    {
      if text[i..i + |key|] == key { return Some(i); }
      i := i + 1;
    }
    return None;
  }

  method Redact(text: string, key: Option<string>) returns (out: string)
    ensures key.None? || key.value == "" ==> out == text
    ensures key.Some? && key.value != "" ==> out == Redacted(text, key.value)
  {
    hide Next, RedactedFrom;
    if key.None? || key.value == "" { return text; }
    var k := key.value;
    out := "";
    var rest := 0;
    while true
      invariant rest <= |text|
      invariant out + RedactedFrom(text, k, rest) == Redacted(text, k)
      decreases |text| - rest
    {
      var found := Find(text, k, rest);
      if found.None? {
        FromNone(text, k, rest);
        break;
      }
      var start, end := found.value, found.value + |k|;
      if (start == 0 || !IsKeyChar(text[start - 1])) && (end == |text| || !IsKeyChar(text[end])) {
        FromWhole(text, k, rest, start);
        Joined(out, text[rest..start], REDACTED, RedactedFrom(text, k, end));
        out := out + text[rest..start] + REDACTED;
        rest := end;
      } else {
        FromPart(text, k, rest, start);
        Joined(out, text[rest..start + 1], "", RedactedFrom(text, k, start + 1));
        out := out + text[rest..start + 1];
        rest := start + 1;
      }
    }
    out := out + text[rest..];
  }

  // ---- Keys of key characters only

  predicate AllKeyChars(s: string) { forall i | 0 <= i < |s| :: IsKeyChar(s[i]) }

  lemma CharAt(text: string, key: string, p: nat, i: nat)
    requires i < |key|
    ensures IsAt(text, key, p) ==> text[p + i] == key[i]
  {
    assert IsAt(text, key, p) ==> text[p..p + |key|][i] == text[p + i];
  }

  /** Where the key's characters are, there are key characters. */
  lemma KeyCharsAt(text: string, key: string, p: nat)
    requires AllKeyChars(key) && IsAt(text, key, p)
    ensures forall i | p <= i < p + |key| :: IsKeyChar(text[i])
  {
    forall i | p <= i < p + |key| ensures IsKeyChar(text[i]) { CharAt(text, key, p, i - p); }
  }

  /** Two places a key of key characters stands whole at do not overlap. */
  lemma OneWhole(text: string, key: string, c: nat, p: nat)
    requires AllKeyChars(key) && IsWhole(text, key, c) && IsWhole(text, key, p) && c <= p < c + |key|
    ensures c == p
  {
    KeyCharsAt(text, key, c);
  }

  /** A key of key characters is taken out at every place it stands whole, and nowhere else. */
  lemma CutsAreExact(text: string, key: string, p: nat)
    requires key != "" && AllKeyChars(key)
    ensures p in Cuts(text, key, 0) <==> IsWhole(text, key, p)
  {
    var cuts := Cuts(text, key, 0);
    hide Cuts, Next, IsWhole, AllKeyChars;
    if p in cuts { CutsAreWhole(text, key, 0, p); }
    if IsWhole(text, key, p) {
      EveryWholeIsMet(text, key, 0, p);
      var c :| c in cuts && c <= p < c + |key|;
      CutsAreWhole(text, key, 0, c);
      OneWhole(text, key, c, p);
    }
  }

  function RunLength(s: string): (n: nat)
    ensures n <= |s|
    ensures AllKeyChars(s[..n])
    ensures n < |s| ==> !IsKeyChar(s[n])
  {
    if s != "" && IsKeyChar(s[0]) then 1 + RunLength(s[1..]) else 0
  }

  /** Word by word: each run of key characters that is the key gives way to the mark. */
  function RedactWords(text: string, key: string): string
    decreases |text|
  {
    if text == "" then ""
    else
      var n := RunLength(text);
      if n == 0 then text[..1] + RedactWords(text[1..], key)
      else (if text[..n] == key then REDACTED else text[..n]) + RedactWords(text[n..], key)
  }

  /** The text before `rest` and the text after it share no word. */
  ghost predicate Parted(text: string, rest: nat) {
    rest <= |text| && (rest == 0 || rest == |text| || !IsKeyChar(text[rest - 1]) || !IsKeyChar(text[rest]))
  }

  /** A run of key characters with none on either side. */
  ghost predicate IsWord(text: string, rest: nat, end: nat) {
    && rest < end <= |text| && Bounded(text, rest, end)
    && forall i | rest <= i < end :: IsKeyChar(text[i])
  }

  /** The words from `rest` on: a character of no word, or a word and what is after it. */
  lemma NextWord(text: string, rest: nat, n: nat)
    requires Parted(text, rest) && rest < |text| && n == RunLength(text[rest..])
    ensures n == 0 <==> !IsKeyChar(text[rest])
    ensures n == 0 ==> Parted(text, rest + 1)
    ensures n == 0 ==> text[rest..][..1] == text[rest..rest + 1] && text[rest..][1..] == text[rest + 1..]
    ensures n > 0 ==> IsWord(text, rest, rest + n) && Parted(text, rest + n)
    ensures n > 0 ==> text[rest..][..n] == text[rest..rest + n] && text[rest..][n..] == text[rest + n..]
  {
    var s := text[rest..];
    forall i | rest <= i < rest + n ensures IsKeyChar(text[i]) { assert text[i] == s[..n][i - rest]; }
    assert rest + n < |text| ==> text[rest + n] == s[n];
  }

  /** In a word, the key stands whole just when it is the word. */
  lemma WholeInWord(text: string, key: string, rest: nat, end: nat, p: nat)
    requires IsWord(text, rest, end) && key != "" && AllKeyChars(key) && rest <= p < end
    ensures IsWhole(text, key, p) <==> p == rest && text[rest..end] == key
  {
    if IsWhole(text, key, p) {
      KeyCharsAt(text, key, p);
    }
  }

  lemma NotAtMark(text: string, key: string, p: nat)
    requires key != "" && AllKeyChars(key) && p < |text| && !IsKeyChar(text[p])
    ensures !IsAt(text, key, p)
  {
    CharAt(text, key, p, 0);
  }

  lemma FromWholeHere(text: string, key: string, rest: nat)
    requires key != "" && IsWhole(text, key, rest)
    ensures RedactedFrom(text, key, rest) == REDACTED + RedactedFrom(text, key, rest + |key|)
  {
    hide RedactedFrom, Bounded;
    FromWhole(text, key, rest, rest);
  }

  lemma FromNotWhole(text: string, key: string, rest: nat)
    requires key != "" && rest < |text| && !IsWhole(text, key, rest)
    ensures RedactedFrom(text, key, rest) == text[rest..rest + 1] + RedactedFrom(text, key, rest + 1)
  {
    hide RedactedFrom, Bounded;
    var next := Next(text, key, rest);
    if next == Some(rest) {
      FromPart(text, key, rest, rest);
    } else {
      assert next == Next(text, key, rest + 1);
      match next
      case None =>
        FromNone(text, key, rest);
        FromNone(text, key, rest + 1);
        assert text[rest..] == text[rest..rest + 1] + text[rest + 1..];
      case Some(p) =>
        hide Next;
        var before, after := text[rest..rest + 1], text[rest + 1..p];
        if IsWhole(text, key, p) {
          FromWhole(text, key, rest, p);
          FromWhole(text, key, rest + 1, p);
          assert text[rest..p] == before + after;
          Joined(before, after, REDACTED, RedactedFrom(text, key, p + |key|));
        } else {
          FromPart(text, key, rest, p);
          FromPart(text, key, rest + 1, p);
          assert text[rest..p + 1] == before + text[rest + 1..p + 1];
          Joined(before, text[rest + 1..p + 1], "", RedactedFrom(text, key, p + 1));
        }
    }
  }

  lemma {:induction false} FromNoWhole(text: string, key: string, rest: nat, to: nat)
    requires key != "" && rest <= to <= |text|
    requires forall p: nat | rest <= p < to :: !IsWhole(text, key, p)
    ensures RedactedFrom(text, key, rest) == text[rest..to] + RedactedFrom(text, key, to)
    decreases |text| - rest
  {
    hide RedactedFrom, IsWhole;
    if rest < to {
      FromNotWhole(text, key, rest);
      FromNoWhole(text, key, rest + 1, to);
      assert text[rest..to] == text[rest..rest + 1] + text[rest + 1..to];
    } else {
      assert text[rest..to] == "";
    }
  }

  lemma FromEnd(text: string, key: string)
    requires key != ""
    ensures RedactedFrom(text, key, |text|) == ""
  {
    FromNone(text, key, |text|);
  }

  /** At a word, the key is taken out just when it is the word. */
  lemma FromWord(text: string, key: string, rest: nat, end: nat)
    requires key != "" && AllKeyChars(key) && IsWord(text, rest, end)
    ensures RedactedFrom(text, key, rest)
            == (if text[rest..end] == key then REDACTED else text[rest..end]) + RedactedFrom(text, key, end)
  {
    hide RedactedFrom, Bounded, IsAt;
    forall p | rest <= p < end ensures IsWhole(text, key, p) <==> p == rest && text[rest..end] == key {
      WholeInWord(text, key, rest, end, p);
    }
    if text[rest..end] == key {
      FromWholeHere(text, key, rest);
    } else {
      FromNoWhole(text, key, rest, end);
    }
  }

  /** Taking the key out at its whole places is going word by word. */
  lemma {:induction false} FromIsWords(text: string, key: string, rest: nat)
    requires key != "" && AllKeyChars(key) && rest <= |text| && Parted(text, rest)
    ensures RedactedFrom(text, key, rest) == RedactWords(text[rest..], key)
    decreases |text| - rest
  {
    hide RedactedFrom, Bounded, IsAt, IsWord, Parted, RunLength, AllKeyChars;
    if rest == |text| {
      FromEnd(text, key);
    } else {
      var n := RunLength(text[rest..]);
      NextWord(text, rest, n);
      if n == 0 {
        NotAtMark(text, key, rest);
        FromNotWhole(text, key, rest);
        FromIsWords(text, key, rest + 1);
      } else {
        FromWord(text, key, rest, rest + n);
        FromIsWords(text, key, rest + n);
      }
    }
  }

  /** For a key of key characters, redacting is going word by word. */
  lemma RedactedIsWords(text: string, key: string)
    requires key != "" && AllKeyChars(key)
    ensures Redacted(text, key) == RedactWords(text, key)
  {
    hide RedactedFrom, RedactWords;
    FromIsWords(text, key, 0);
    assert text[0..] == text;
  }
}
