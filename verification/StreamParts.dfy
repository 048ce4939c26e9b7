/**
 The parts of a reply and the deltas it streams as (crates/oxplow-ai/src/parts.rs).
 JSON values are kept as their text; nothing here looks inside them.
 */
module StreamParts {
  import opened Basics

  type Json = string

  datatype Part =
    | Text(text: string)
    | Image(assetRef: string, mediaType: string)
    | ToolCall(id: string, name: string, arguments: Json)
    | ToolResult(callId: string, result: Json)

  datatype Delta = TextDelta(text: string) | CallDelta(id: string, name: string, arguments: Json)

  datatype FinishReason = Unknown | Stop | Length | ToolCalls | Other

  datatype Response = Response(parts: seq<Part>, finishReason: FinishReason)

  function PartOf(d: Delta): Part {
    match d
    case TextDelta(text) => Text(text)
    case CallDelta(id, name, arguments) => ToolCall(id, name, arguments)
  }

  function Last<T>(s: seq<T>): T
    requires s != []
  {
    s[|s| - 1]
  }

  // ---- What pushing deltas one by one makes

  function Pushed(parts: seq<Part>, d: Delta): seq<Part> {
    if d.TextDelta? && parts != [] && Last(parts).Text?
    then parts[..|parts| - 1] + [Text(Last(parts).text + d.text)]
    else parts + [PartOf(d)]
  }

  function FoldFrom(parts: seq<Part>, deltas: seq<Delta>): seq<Part>
    decreases |deltas|
  {
    if deltas == [] then parts else FoldFrom(Pushed(parts, deltas[0]), deltas[1..])
  }

  function Fold(deltas: seq<Delta>): seq<Part> { FoldFrom([], deltas) }

  lemma {:induction false} FoldOn(parts: seq<Part>, a: seq<Delta>, b: seq<Delta>)
    ensures FoldFrom(parts, a + b) == FoldFrom(FoldFrom(parts, a), b)
    decreases |a|
  {
    if a == [] {
      assert a + b == b;
    } else {
      assert (a + b)[1..] == a[1..] + b;
      FoldOn(Pushed(parts, a[0]), a[1..], b);
    }
  }

  class DeltaFold {
    var parts: seq<Part>

    constructor ()
      ensures parts == []
    {
      parts := [];
    }

    method Push(delta: Delta)
      modifies this
      ensures parts == Pushed(old(parts), delta)
    {
      match delta
      case TextDelta(text) =>
        if parts != [] && parts[|parts| - 1].Text? {
          parts := parts[|parts| - 1 := Text(parts[|parts| - 1].text + text)];
        } else {
          parts := parts + [Text(text)];
        }
      case CallDelta(id, name, arguments) =>
        parts := parts + [ToolCall(id, name, arguments)];
    }

    method IntoPartial() returns (response: Response)
      ensures response == Response(parts, Unknown)
    {
      response := Response(parts, Unknown);
    }
  }

  // ---- What it means for deltas to be some parts, cut up

  predicate AllText(deltas: seq<Delta>) { forall i | 0 <= i < |deltas| :: deltas[i].TextDelta? }

  function Joined(deltas: seq<Delta>): string
    requires AllText(deltas)
  {
    if deltas == [] then "" else deltas[0].text + Joined(deltas[1..])
  }

  /** The first part is a text that the first `k` deltas are the pieces of. */
  ghost predicate TextIsCut(parts: seq<Part>, deltas: seq<Delta>, k: nat) {
    && 0 < k <= |deltas| && parts != [] && parts[0].Text?
    && AllText(deltas[..k]) && Joined(deltas[..k]) == parts[0].text
  }

  /** A text may come in any number of pieces, from one up; a tool call comes whole. */
  ghost predicate IsCut(parts: seq<Part>, deltas: seq<Delta>)
    decreases |parts|
  {
    if parts == [] then deltas == []
    else if parts[0].Text? then exists k: nat :: TextIsCut(parts, deltas, k) && IsCut(parts[1..], deltas[k..])
    else deltas != [] && PartOf(deltas[0]) == parts[0] && IsCut(parts[1..], deltas[1..])
  }

  predicate NoAdjacentTexts(parts: seq<Part>) {
    forall i | 0 <= i < |parts| - 1 :: !(parts[i].Text? && parts[i + 1].Text?)
  }

  lemma {:induction false} JoinedOn(a: seq<Delta>, d: Delta)
    requires AllText(a) && d.TextDelta?
    ensures AllText(a + [d]) && Joined(a + [d]) == Joined(a) + d.text
  {
    if a == [] {
      assert (a + [d])[1..] == [];
    } else {
      assert (a + [d])[1..] == a[1..] + [d];
      JoinedOn(a[1..], d);
    }
  }

  lemma CutOfOne(d: Delta)
    ensures IsCut([PartOf(d)], [d])
  {
    var parts, deltas := [PartOf(d)], [d];
    if d.TextDelta? {
      assert deltas[..1] == deltas && deltas[1..] == [];
      assert TextIsCut(parts, deltas, 1) && IsCut(parts[1..], deltas[1..]);
    }
  }

  lemma PushedRest(parts: seq<Part>, d: Delta)
    requires parts != [] && !(|parts| == 1 && parts[0].Text? && d.TextDelta?)
    ensures Pushed(parts, d) != [] && Pushed(parts, d)[0] == parts[0]
    ensures Pushed(parts, d)[1..] == Pushed(parts[1..], d)
  {}

  /** One more delta is the parts' cut with that delta pushed. */
  lemma {:induction false} CutOn(parts: seq<Part>, deltas: seq<Delta>, d: Delta)
    requires IsCut(parts, deltas)
    ensures IsCut(Pushed(parts, d), deltas + [d])
    decreases |parts|
  {
    var after := deltas + [d];
    if parts == [] {
      CutOfOne(d);
      assert after == [d] && Pushed(parts, d) == [PartOf(d)];
    } else if parts[0].Text? {
      var k: nat :| TextIsCut(parts, deltas, k) && IsCut(parts[1..], deltas[k..]);
      if |parts| == 1 && d.TextDelta? {
        assert deltas[k..] == [] && deltas == deltas[..k];
        JoinedOn(deltas, d);
        assert after[..k + 1] == after && after[k + 1..] == [];
        assert TextIsCut(Pushed(parts, d), after, k + 1) && IsCut(Pushed(parts, d)[1..], after[k + 1..]);
      } else {
        CutOn(parts[1..], deltas[k..], d);
        PushedRest(parts, d);
        assert after[..k] == deltas[..k] && after[k..] == deltas[k..] + [d];
        assert TextIsCut(Pushed(parts, d), after, k) && IsCut(Pushed(parts, d)[1..], after[k..]);
      }
    } else {
      CutOn(parts[1..], deltas[1..], d);
      PushedRest(parts, d);
      assert after[1..] == deltas[1..] + [d];
    }
  }

  lemma PushedOver(done: seq<Delta>, deltas: seq<Delta>)
    requires deltas != []
    ensures done + [deltas[0]] + deltas[1..] == done + deltas
  {}

  lemma {:induction false} FoldIsCut(parts: seq<Part>, done: seq<Delta>, deltas: seq<Delta>)
    requires IsCut(parts, done)
    ensures IsCut(FoldFrom(parts, deltas), done + deltas)
    decreases |deltas|
  {
    hide IsCut, Pushed;
    if deltas == [] {
      assert done + deltas == done;
    } else {
      CutOn(parts, done, deltas[0]);
      FoldIsCut(Pushed(parts, deltas[0]), done + [deltas[0]], deltas[1..]);
      PushedOver(done, deltas);
    }
  }

  lemma {:induction false} FoldHasNoAdjacentTexts(parts: seq<Part>, deltas: seq<Delta>)
    requires NoAdjacentTexts(parts)
    ensures NoAdjacentTexts(FoldFrom(parts, deltas))
    decreases |deltas|
  {
    if deltas != [] { FoldHasNoAdjacentTexts(Pushed(parts, deltas[0]), deltas[1..]); }
  }

  lemma Concatenated(a: string, b: string, c: string)
    ensures a + b + c == a + (b + c)
  {}

  /** The pieces of one text, pushed onto parts that end in a text, join it. */
  lemma {:induction false} FoldJoins(parts: seq<Part>, deltas: seq<Delta>)
    requires AllText(deltas) && parts != [] && Last(parts).Text?
    ensures FoldFrom(parts, deltas) == parts[..|parts| - 1] + [Text(Last(parts).text + Joined(deltas))]
    decreases |deltas|
  {
    if deltas == [] {
      assert Last(parts).text + "" == Last(parts).text;
    } else {
      var front, more := parts[..|parts| - 1], Pushed(parts, deltas[0]);
      assert more[..|more| - 1] == front;
      FoldJoins(more, deltas[1..]);
      Concatenated(Last(parts).text, deltas[0].text, Joined(deltas[1..]));
    }
  }

  lemma FoldText(parts: seq<Part>, deltas: seq<Delta>)
    requires AllText(deltas) && deltas != [] && (parts == [] || !Last(parts).Text?)
    ensures FoldFrom(parts, deltas) == parts + [Text(Joined(deltas))]
  {
    var more := parts + [Text(deltas[0].text)];
    assert Pushed(parts, deltas[0]) == more && more[..|more| - 1] == parts;
    assert Joined(deltas) == deltas[0].text + Joined(deltas[1..]);
    FoldJoins(more, deltas[1..]);
    assert FoldFrom(more, deltas[1..]) == more[..|more| - 1] + [Text(deltas[0].text + Joined(deltas[1..]))];
    assert FoldFrom(parts, deltas) == parts + [Text(Joined(deltas))];
  }

  lemma NoTextBefore(before: seq<Part>, parts: seq<Part>)
    requires NoAdjacentTexts(before + parts) && parts != [] && parts[0].Text?
    ensures before == [] || !Last(before).Text?
  {
    if before != [] {
      var i := |before| - 1;
      assert (before + parts)[i] == Last(before) && (before + parts)[i + 1] == parts[0];
    }
  }

  lemma {:induction false} FoldOfCut(before: seq<Part>, parts: seq<Part>, deltas: seq<Delta>)
    requires IsCut(parts, deltas) && NoAdjacentTexts(before + parts)
    ensures FoldFrom(before, deltas) == before + parts
    decreases |parts|
  {
    if parts == [] {
      assert before + parts == before;
    } else {
      var more := before + [parts[0]];
      assert more + parts[1..] == before + parts;
      if parts[0].Text? {
        var k: nat :| TextIsCut(parts, deltas, k) && IsCut(parts[1..], deltas[k..]);
        NoTextBefore(before, parts);
        FoldText(before, deltas[..k]);
        FoldOn(before, deltas[..k], deltas[k..]);
        assert deltas == deltas[..k] + deltas[k..];
        FoldOfCut(more, parts[1..], deltas[k..]);
      } else {
        FoldOfCut(more, parts[1..], deltas[1..]);
      }
    }
  }

  /** The fold is the one list of parts with no two texts together that the deltas
      are the pieces of. */
  lemma FoldIffCut(parts: seq<Part>, deltas: seq<Delta>)
    ensures parts == Fold(deltas) <==> NoAdjacentTexts(parts) && IsCut(parts, deltas)
  {
    FoldIsCut([], [], deltas);
    assert [] + deltas == deltas;
    FoldHasNoAdjacentTexts([], deltas);
    if NoAdjacentTexts(parts) && IsCut(parts, deltas) {
      assert [] + parts == parts;
      FoldOfCut([], parts, deltas);
    }
  }

  // ---- Cutting deltas further

  function AsParts(deltas: seq<Delta>): (parts: seq<Part>)
    ensures |parts| == |deltas| && forall i | 0 <= i < |deltas| :: parts[i] == PartOf(deltas[i])
  {
    if deltas == [] then [] else [PartOf(deltas[0])] + AsParts(deltas[1..])
  }

  lemma PiecesOfOne(parts: seq<Part>, d: Delta, pieces: seq<Delta>)
    requires d.TextDelta? && pieces != [] && AllText(pieces) && Joined(pieces) == d.text
    ensures FoldFrom(parts, pieces) == Pushed(parts, d)
  {
    if parts == [] || !Last(parts).Text? {
      FoldText(parts, pieces);
    } else {
      FoldJoins(parts, pieces);
    }
  }

  lemma AsPartsRest(deltas: seq<Delta>)
    requires deltas != []
    ensures AsParts(deltas) != [] && AsParts(deltas)[1..] == AsParts(deltas[1..])
  {}

  /** The pieces of the first delta, and what pushing them makes. */
  lemma TextCutFirst(parts: seq<Part>, deltas: seq<Delta>, pieces: seq<Delta>) returns (k: nat)
    requires deltas != [] && deltas[0].TextDelta? && IsCut(AsParts(deltas), pieces)
    ensures k <= |pieces| && IsCut(AsParts(deltas[1..]), pieces[k..])
    ensures FoldFrom(parts, pieces) == FoldFrom(Pushed(parts, deltas[0]), pieces[k..])
  {
    var now := AsParts(deltas);
    AsPartsRest(deltas);
    k :| TextIsCut(now, pieces, k) && IsCut(now[1..], pieces[k..]);
    assert AllText(pieces[..k]) && Joined(pieces[..k]) == deltas[0].text;
    hide FoldFrom, IsCut, Pushed, Joined, AllText;
    PiecesOfOne(parts, deltas[0], pieces[..k]);
    FoldOn(parts, pieces[..k], pieces[k..]);
    assert pieces == pieces[..k] + pieces[k..];
  }

  lemma CallCutFirst(deltas: seq<Delta>, pieces: seq<Delta>)
    requires deltas != [] && !deltas[0].TextDelta? && IsCut(AsParts(deltas), pieces)
    ensures pieces != [] && pieces[0] == deltas[0] && IsCut(AsParts(deltas[1..]), pieces[1..])
  {
    AsPartsRest(deltas);
  }

  /** However the texts of a stream are cut, it folds to the same parts. */
  lemma {:induction false} CuttingKeepsFold(parts: seq<Part>, deltas: seq<Delta>, pieces: seq<Delta>)
    requires IsCut(AsParts(deltas), pieces)
    ensures FoldFrom(parts, pieces) == FoldFrom(parts, deltas)
    decreases |deltas|
  {
    if deltas != [] {
      hide IsCut, Pushed, AsParts;
      var more := Pushed(parts, deltas[0]);
      if deltas[0].TextDelta? {
        var k := TextCutFirst(parts, deltas, pieces);
        CuttingKeepsFold(more, deltas[1..], pieces[k..]);
      } else {
        CallCutFirst(deltas, pieces);
        CuttingKeepsFold(more, deltas[1..], pieces[1..]);
      }
    }
  }

  // ---- The deltas a whole reply is

  function SaidOf(part: Part): Option<Delta> {
    match part
    case Text(text) => Some(TextDelta(text))
    case ToolCall(id, name, arguments) => Some(CallDelta(id, name, arguments))
    case _ => None
  }

  /** A reply's texts and tool calls; images and results are not streamed. */
  function Said(parts: seq<Part>): seq<Delta> {
    if parts == [] then []
    else
      match SaidOf(parts[0])
      case None => Said(parts[1..])
      case Some(d) => [d] + Said(parts[1..])
  }

  function Grown(deltas: seq<Delta>, d: Delta): seq<Delta> {
    if d.TextDelta? && deltas != [] && Last(deltas).TextDelta?
    then deltas[..|deltas| - 1] + [TextDelta(Last(deltas).text + d.text)]
    else deltas + [d]
  }

  function OfFrom(deltas: seq<Delta>, parts: seq<Part>): seq<Delta>
    decreases |parts|
  {
    if parts == [] then deltas
    else
      match SaidOf(parts[0])
      case None => OfFrom(deltas, parts[1..])
      case Some(d) => OfFrom(Grown(deltas, d), parts[1..])
  }

  lemma GrownIsPushed(deltas: seq<Delta>, d: Delta)
    ensures AsParts(Grown(deltas, d)) == Pushed(AsParts(deltas), d)
  {
    hide AsParts;
    var grown, pushed := AsParts(Grown(deltas, d)), Pushed(AsParts(deltas), d);
    assert |grown| == |pushed|;
    forall i | 0 <= i < |grown| ensures grown[i] == pushed[i] {
      assert grown[i] == PartOf(Grown(deltas, d)[i]);
    }
  }

  lemma {:induction false} OfIsFold(deltas: seq<Delta>, parts: seq<Part>)
    ensures AsParts(OfFrom(deltas, parts)) == FoldFrom(AsParts(deltas), Said(parts))
    decreases |parts|
  {
    if parts != [] {
      match SaidOf(parts[0])
      case None => OfIsFold(deltas, parts[1..]);
      case Some(d) =>
        GrownIsPushed(deltas, d);
        OfIsFold(Grown(deltas, d), parts[1..]);
        hide Grown, AsParts, Pushed;
        assert Said(parts)[1..] == Said(parts[1..]);
    }
  }

  lemma {:induction false} CutOfItself(deltas: seq<Delta>)
    ensures IsCut(AsParts(deltas), deltas)
  {
    if deltas != [] {
      var parts := AsParts(deltas);
      assert parts[1..] == AsParts(deltas[1..]);
      CutOfItself(deltas[1..]);
      if deltas[0].TextDelta? {
        assert deltas[..1] == [deltas[0]] && Joined([deltas[0]]) == deltas[0].text + Joined([]);
        assert TextIsCut(parts, deltas, 1) && IsCut(parts[1..], deltas[1..]);
      }
    }
  }

  /** Deltas with no two texts together are their own fold. */
  lemma FoldKeepsIff(deltas: seq<Delta>)
    ensures Fold(deltas) == AsParts(deltas) <==> NoAdjacentTexts(AsParts(deltas))
  {
    CutOfItself(deltas);
    FoldIffCut(AsParts(deltas), deltas);
  }

  /** A whole reply's deltas fold to its texts and calls, adjacent texts joined; they
      are that already. */
  lemma FoldOfWhole(parts: seq<Part>)
    ensures Fold(OfFrom([], parts)) == Fold(Said(parts)) == AsParts(OfFrom([], parts))
  {
    OfIsFold([], parts);
    FoldHasNoAdjacentTexts([], Said(parts));
    FoldKeepsIff(OfFrom([], parts));
  }

  method Of(parts: seq<Part>) returns (deltas: seq<Delta>)
    ensures Fold(deltas) == Fold(Said(parts)) && AsParts(deltas) == Fold(deltas)
  {
    deltas := [];
    for i := 0 to |parts|
      invariant OfFrom(deltas, parts[i..]) == OfFrom([], parts)
    {
      ghost var grown := if SaidOf(parts[i]).None? then deltas else Grown(deltas, SaidOf(parts[i]).value);
      assert parts[i..][0] == parts[i] && parts[i..][1..] == parts[i + 1..];
      match parts[i] {
        case Text(text) =>
          if deltas != [] && deltas[|deltas| - 1].TextDelta? {
            deltas := deltas[|deltas| - 1 := TextDelta(deltas[|deltas| - 1].text + text)];
          } else {
            deltas := deltas + [TextDelta(text)];
          }
        case ToolCall(id, name, arguments) => deltas := deltas + [CallDelta(id, name, arguments)];
        case _ =>
      }
      assert deltas == grown;
    }
    FoldOfWhole(parts);
  }

  lemma {:induction false} SaidOfParts(deltas: seq<Delta>)
    ensures Said(AsParts(deltas)) == deltas
  {
    if deltas != [] {
      assert AsParts(deltas)[1..] == AsParts(deltas[1..]);
      SaidOfParts(deltas[1..]);
    }
  }

  lemma PushedOnlySays(parts: seq<Part>, d: Delta)
    requires AsParts(Said(parts)) == parts
    ensures AsParts(Said(Pushed(parts, d))) == Pushed(parts, d)
  {
    GrownIsPushed(Said(parts), d);
    SaidOfParts(Grown(Said(parts), d));
  }

  lemma {:induction false} FoldOnlySays(parts: seq<Part>, deltas: seq<Delta>)
    requires AsParts(Said(parts)) == parts
    ensures AsParts(Said(FoldFrom(parts, deltas))) == FoldFrom(parts, deltas)
    decreases |deltas|
  {
    if deltas != [] {
      PushedOnlySays(parts, deltas[0]);
      FoldOnlySays(Pushed(parts, deltas[0]), deltas[1..]);
    }
  }

  /** The deltas of what was folded are those parts, one each. */
  lemma OfUndoesFold(deltas: seq<Delta>)
    ensures AsParts(OfFrom([], Fold(deltas))) == Fold(deltas)
  {
    FoldOnlySays([], deltas);
    var said := Said(Fold(deltas));
    assert AsParts(said) == Fold(deltas);
    FoldHasNoAdjacentTexts([], deltas);
    FoldKeepsIff(said);
    FoldOfWhole(Fold(deltas));
  }

  lemma {:induction false} SaysAll(parts: seq<Part>)
    ensures (forall i | 0 <= i < |parts| :: parts[i].Text? || parts[i].ToolCall?) ==> AsParts(Said(parts)) == parts
  {
    if parts != [] {
      SaysAll(parts[1..]);
      assert parts == [parts[0]] + parts[1..];
    }
  }

  /** A reply is what its deltas fold to just when it holds texts and calls only, no
      two texts together. */
  lemma WholeIsItsFoldIff(parts: seq<Part>)
    ensures Fold(OfFrom([], parts)) == parts
            <==> NoAdjacentTexts(parts) && forall i | 0 <= i < |parts| :: parts[i].Text? || parts[i].ToolCall?
  {
    FoldOfWhole(parts);
    FoldHasNoAdjacentTexts([], Said(parts));
    FoldKeepsIff(Said(parts));
    SaysAll(parts);
  }
}
