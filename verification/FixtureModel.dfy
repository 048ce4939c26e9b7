/**
 The scripted model that answers from a list of replies
 (crates/oxplow-ai/src/fixture.rs) and the default way a whole reply is streamed
 (crates/oxplow-ai/src/client.rs). When a cancel is asked is a parameter.
 */
module FixtureModel {
  import opened Basics
  import opened StreamParts

  datatype CallMade = CallMade(name: string, arguments: Json)

  /** `paced` is whether the reply waits before each word. */
  datatype Reply = Reply(text: string, toolCalls: seq<CallMade>, paced: bool, when: Option<string>)

  /** `last` is the text of the last message's parts. */
  datatype Request = Request(schemaVersion: int, last: string)

  datatype Error = UnknownVersion(actual: int) | Cancelled(partial: Response)

  const SCHEMA_VERSION := 1

  // ---- Which reply answers

  predicate IsIn(s: string, w: string, i: nat) { i + |w| <= |s| && s[i..i + |w|] == w }

  predicate Contains(s: string, w: string) { exists i | 0 <= i <= |s| :: IsIn(s, w, i) }

  /** A text has another in it just when it is that one with something before and after. */
  lemma ContainsIff(s: string, w: string)
    ensures Contains(s, w) <==> exists before, after :: s == before + w + after
  {
    if i :| 0 <= i <= |s| && IsIn(s, w, i) { assert s == s[..i] + w + s[i + |w|..]; }
    if before, after :| s == before + w + after {
      assert s[|before|..|before| + |w|] == w;
      assert IsIn(s, w, |before|);
    }
  }

  predicate Matches(r: Reply, last: string) { r.when.Some? && Contains(last, r.when.value) }

  /** The reply at `at` is the first that matches, or there is none and it is the first with no `when`. */
  ghost predicate Answers(replies: seq<Reply>, last: string, at: nat) {
    && at < |replies|
    && (if Matches(replies[at], last)
        then forall i | 0 <= i < at :: !Matches(replies[i], last)
        else && replies[at].when.None? && (forall i | 0 <= i < |replies| :: !Matches(replies[i], last))
             && forall i | 0 <= i < at :: replies[i].when.Some?)
  }

  function FirstMatch(replies: seq<Reply>, last: string): (n: nat)
    ensures n <= |replies| && (n < |replies| ==> Matches(replies[n], last))
    ensures forall i | 0 <= i < n :: !Matches(replies[i], last)
  {
    if replies == [] || Matches(replies[0], last) then 0 else 1 + FirstMatch(replies[1..], last)
  }

  function FirstFree(replies: seq<Reply>): (n: nat)
    ensures n <= |replies| && (n < |replies| ==> replies[n].when.None?)
    ensures forall i | 0 <= i < n :: replies[i].when.Some?
  {
    if replies == [] || replies[0].when.None? then 0 else 1 + FirstFree(replies[1..])
  }

  /** The reply that answers and what is left after it; the last given again when none does. */
  function Turn(replies: seq<Reply>, given: Reply, last: string): (r: (Reply, seq<Reply>)) {
    var m, f := FirstMatch(replies, last), FirstFree(replies);
    var at := if m < |replies| then m else f;
    if at < |replies| then (replies[at], replies[..at] + replies[at + 1..]) else (given, replies)
  }

  lemma TurnAnswers(replies: seq<Reply>, given: Reply, last: string)
    ensures var (reply, left) := Turn(replies, given, last);
            || (exists at: nat :: Answers(replies, last, at) && reply == replies[at]
                                  && left == replies[..at] + replies[at + 1..])
            || (reply == given && left == replies && forall at: nat :: !Answers(replies, last, at))
  {
    var m, f := FirstMatch(replies, last), FirstFree(replies);
    if m < |replies| {
      assert Answers(replies, last, m);
    } else if f < |replies| {
      assert Answers(replies, last, f);
    }
  }

  /** The replies given to requests one after another. */
  function Served(replies: seq<Reply>, given: Reply, asked: seq<string>): (served: seq<Reply>)
    ensures |served| == |asked|
    decreases |asked|
  {
    if asked == [] then []
    else
      var (reply, left) := Turn(replies, given, asked[0]);
      [reply] + Served(left, reply, asked[1..])
  }

  /** Replies with no `when` come in turn, and the last of them ever after. */
  lemma {:induction false} RepliesComeInTurn(replies: seq<Reply>, given: Reply, asked: seq<string>, k: nat)
    requires k < |asked| && forall i | 0 <= i < |replies| :: replies[i].when.None?
    ensures Served(replies, given, asked)[k]
         == if replies == [] then given else replies[if k < |replies| then k else |replies| - 1]
    decreases k
  {
    var (reply, left) := Turn(replies, given, asked[0]);
    if replies != [] {
      assert FirstMatch(replies, asked[0]) == |replies| && FirstFree(replies) == 0;
      assert left == replies[1..];
    }
    if k > 0 { RepliesComeInTurn(left, reply, asked[1..], k - 1); }
  }

  // ---- The ids of its tool calls

  function Decimal(n: nat): (s: string)
    ensures s != ""
  {
    (if n < 10 then "" else Decimal(n / 10)) + [(48 + n % 10) as char]
  }

  function CallId(n: nat): string { "call-" + Decimal(n) }

  lemma {:induction false} DecimalsDiffer(m: nat, n: nat)
    requires Decimal(m) == Decimal(n)
    ensures m == n
  {
    var a, b := Decimal(m), Decimal(n);
    assert a[|a| - 1] == (48 + m % 10) as char && b[|b| - 1] == (48 + n % 10) as char;
    assert a[..|a| - 1] == if m < 10 then "" else Decimal(m / 10);
    assert b[..|b| - 1] == if n < 10 then "" else Decimal(n / 10);
    if m >= 10 && n >= 10 { DecimalsDiffer(m / 10, n / 10); }
  }

  lemma CallIdsDiffer(m: nat, n: nat)
    ensures CallId(m) == CallId(n) <==> m == n
  {
    if CallId(m) == CallId(n) {
      assert CallId(m)[5..] == Decimal(m) && CallId(n)[5..] == Decimal(n);
      DecimalsDiffer(m, n);
    }
  }

  /** The calls as parts, numbered on from `from`. */
  function Numbered(calls: seq<CallMade>, from: nat): (parts: seq<Part>)
    ensures |parts| == |calls|
    ensures forall i | 0 <= i < |calls| :: parts[i] == ToolCall(CallId(from + 1 + i), calls[i].name, calls[i].arguments)
  {
    if calls == [] then []
    else [ToolCall(CallId(from + 1), calls[0].name, calls[0].arguments)] + Numbered(calls[1..], from + 1)
  }

  function ReplyParts(reply: Reply, calls: nat): seq<Part> {
    (if reply.text == "" then [] else [Text(reply.text)]) + Numbered(reply.toolCalls, calls)
  }

  // ---- Cutting a text into words

  /** One past the first space, or the end. */
  function WordEnd(text: string): (n: nat)
    ensures n <= |text| && (text != "" ==> n > 0)
    ensures forall i | 0 <= i < n - 1 :: text[i] != ' '
    ensures n < |text| ==> text[n - 1] == ' '
  {
    if text == "" then 0 else if text[0] == ' ' then 1 else 1 + WordEnd(text[1..])
  }

  /** Each word with the space after it. */
  function Words(text: string): seq<string>
    decreases |text|
  {
    if text == "" then [] else [text[..WordEnd(text)]] + Words(text[WordEnd(text)..])
  }

  function Texts(words: seq<string>): (deltas: seq<Delta>)
    ensures |deltas| == |words| && AllText(deltas)
    ensures forall i | 0 <= i < |words| :: deltas[i] == TextDelta(words[i])
  {
    if words == [] then [] else [TextDelta(words[0])] + Texts(words[1..])
  }

  /** The pieces a reply's text is sent in. */
  function Pieces(reply: Reply): seq<string> {
    if reply.paced then Words(reply.text) else if reply.text == "" then [] else [reply.text]
  }

  lemma SplitAt(text: string, n: nat)
    requires n <= |text|
    ensures text[..n] + text[n..] == text
  {}

  lemma TextsJoin(words: seq<string>)
    requires words != []
    ensures Joined(Texts(words)) == words[0] + Joined(Texts(words[1..]))
  {
    assert Texts(words)[1..] == Texts(words[1..]);
  }

  lemma {:induction false} WordsJoin(text: string)
    ensures Joined(Texts(Words(text))) == text
    decreases |text|
  {
    if text != "" {
      var n := WordEnd(text);
      var words := Words(text);
      WordsJoin(text[n..]);
      TextsJoin(words);
      SplitAt(text, n);
      hide Texts, Joined, WordEnd;
      assert words[1..] == Words(text[n..]);
    }
  }

  /** A word ends at its first space, if it has one; only the last has none. */
  predicate AreWords(words: seq<string>) {
    && (forall i | 0 <= i < |words| :: words[i] != "" && ' ' !in words[i][..|words[i]| - 1])
    && (forall i | 0 <= i < |words| - 1 :: Last(words[i]) == ' ')
  }

  lemma WordEndsAt(word: string, rest: string)
    requires word != "" && ' ' !in word[..|word| - 1] && (rest != "" ==> Last(word) == ' ')
    ensures WordEnd(word + rest) == |word|
  {
    var text := word + rest;
    assert forall i | 0 <= i < |word| - 1 :: text[i] == word[..|word| - 1][i];
    assert text[|word| - 1] == Last(word);
  }

  lemma WordThen(word: string, rest: seq<string>)
    requires word != "" && ' ' !in word[..|word| - 1] && AreWords(rest) && (rest != [] ==> Last(word) == ' ')
    ensures AreWords([word] + rest)
  {
    var words := [word] + rest;
    assert forall i | 0 < i < |words| :: words[i] == rest[i - 1];
  }

  lemma FirstOfWords(text: string)
    requires text != "" && AreWords(Words(text[WordEnd(text)..]))
    ensures AreWords(Words(text))
  {
    var n := WordEnd(text);
    hide WordEnd, AreWords;
    var word, rest := text[..n], Words(text[n..]);
    assert Last(word) == text[n - 1] && forall i | 0 <= i < n - 1 :: word[..|word| - 1][i] == text[i];
    WordThen(word, rest);
  }

  lemma WordsRest(words: seq<string>)
    requires AreWords(words) && words != []
    ensures AreWords(words[1..])
  {}

  /** A text's words are the one cut of it into words. */
  lemma {:induction false} WordsAreExact(text: string, words: seq<string>)
    ensures words == Words(text) <==> AreWords(words) && Joined(Texts(words)) == text
    decreases |text|
  {
    WordsJoin(text);
    if text != "" {
      var n := WordEnd(text);
      WordsAreExact(text[n..], Words(text)[1..]);
      assert Words(text)[1..] == Words(text[n..]);
      FirstOfWords(text);
      if AreWords(words) && Joined(Texts(words)) == text && words != [] {
        TextsJoin(words);
        WordsRest(words);
        var rest := Joined(Texts(words[1..]));
        assert rest == "" ==> words[1..] == [] by { if words[1..] != [] { TextsJoin(words[1..]); } }
        WordEndsAt(words[0], rest);
        SplitAt(text, n);
        assert text[..n] == words[0] && text[n..] == rest;
        WordsAreExact(rest, words[1..]);
      }
    } else if words != [] {
      TextsJoin(words);
    }
  }

  /** A paced reply goes out word by word, another in one piece. */
  lemma PiecesAre(reply: Reply)
    ensures reply.paced ==> AreWords(Pieces(reply))
    ensures !reply.paced ==> Pieces(reply) == if reply.text == "" then [] else [reply.text]
  {
    WordsAreExact(reply.text, Words(reply.text));
  }

  lemma PiecesJoin(reply: Reply)
    ensures Joined(Texts(Pieces(reply))) == reply.text
    ensures Pieces(reply) == [] <==> reply.text == ""
  {
    WordsJoin(reply.text);
    var one := Texts([reply.text]);
    assert Joined(one) == one[0].text + Joined(one[1..]);
  }

  /** The first words of a text are a start of it. */
  lemma {:induction false} JoinedStart(deltas: seq<Delta>, k: nat)
    requires AllText(deltas) && k <= |deltas|
    ensures Joined(deltas[..k]) <= Joined(deltas)
  {
    if k > 0 {
      JoinedStart(deltas[1..], k - 1);
      assert deltas[..k][1..] == deltas[1..][..k - 1];
    }
  }

  /** What deltas that are all text fold to. */
  function TextParts(text: string, none: bool): seq<Part> { if none then [] else [Text(text)] }

  // ---- The model

  lemma FoldOne(deltas: seq<Delta>, d: Delta)
    ensures Fold(deltas + [d]) == Pushed(Fold(deltas), d)
  {
    FoldOn([], deltas, [d]);
    var one := [d];
    assert one[1..] == [];
    assert FoldFrom(Fold(deltas), one) == FoldFrom(Pushed(Fold(deltas), one[0]), one[1..]);
  }

  /** The text, piece by piece, until the cancel is seen. */
  method SendPieces(reply: Reply, cancelled: Option<nat>, fold: DeltaFold) returns (sent: seq<Delta>, stopped: bool)
    requires fold.parts == Fold([])
    modifies fold
    ensures stopped == (cancelled.Some? && cancelled.value < |Pieces(reply)|)
    ensures sent == Texts(Pieces(reply))[..if stopped then cancelled.value else |Pieces(reply)|]
    ensures fold.parts == Fold(sent)
  {
    hide Fold, Pieces, Pushed, Texts;
    sent, stopped := [], false;
    var words := Pieces(reply);
    ghost var deltas := Texts(words);
    for i := 0 to |words|
      invariant sent == deltas[..i] && fold.parts == Fold(sent)
      invariant cancelled.Some? ==> i <= cancelled.value
    {
      if cancelled == Some(i) { return sent, true; }
      FoldOne(sent, TextDelta(words[i]));
      fold.Push(TextDelta(words[i]));
      sent := sent + [TextDelta(words[i])];
    }
  }

  /** The tool calls among parts. */
  function SentCalls(parts: seq<Part>): seq<Part> {
    if parts == [] then []
    else SentCalls(parts[..|parts| - 1]) + if Last(parts).ToolCall? then [Last(parts)] else []
  }

  lemma NoCalls(parts: seq<Part>)
    ensures SentCalls(parts[..0]) == []
  {}

  lemma SentCallsOn(parts: seq<Part>, i: nat)
    requires i < |parts|
    ensures SentCalls(parts[..i + 1]) == SentCalls(parts[..i]) + if parts[i].ToolCall? then [parts[i]] else []
  {
    assert parts[..i + 1][..i] == parts[..i];
  }

  /** The tool calls among the parts, after what was sent before. */
  method SendCalls(parts: seq<Part>, before: seq<Delta>, fold: DeltaFold) returns (sent: seq<Delta>)
    requires fold.parts == Fold(before)
    modifies fold
    ensures Fold(sent) == Fold(before) + SentCalls(parts)
  {
    hide Fold, SentCalls;
    NoCalls(parts);
    sent := before;
    for i := 0 to |parts|
      invariant fold.parts == Fold(sent) == Fold(before) + SentCalls(parts[..i])
    {
      SentCallsOn(parts, i);
      match parts[i] {
        case ToolCall(id, name, arguments) =>
          var delta := CallDelta(id, name, arguments);
          FoldOne(sent, delta);
          fold.Push(delta);
          sent := sent + [delta];
        case _ =>
      }
    }
    assert parts[..|parts|] == parts;
  }

  lemma FoldNone()
    ensures Fold([]) == []
  {}

  /** The first pieces of a reply fold to a start of its text. */
  lemma StartFolds(reply: Reply, k: nat)
    requires k <= |Pieces(reply)|
    ensures var sent := Texts(Pieces(reply))[..k];
            && (exists n: nat | n <= |reply.text| :: Fold(sent) == TextParts(reply.text[..n], k == 0))
            && (k == |Pieces(reply)| ==> Fold(sent) == TextParts(reply.text, reply.text == ""))
  {
    var deltas := Texts(Pieces(reply));
    PiecesJoin(reply);
    JoinedStart(deltas, k);
    if k > 0 { FoldText([], deltas[..k]); }
    assert k == |deltas| ==> deltas[..k] == deltas;
    assert reply.text[..|Joined(deltas[..k])|] == Joined(deltas[..k]);
  }

  lemma {:induction false} AllCalls(parts: seq<Part>)
    requires forall i | 0 <= i < |parts| :: parts[i].ToolCall?
    ensures SentCalls(parts) == parts
  {
    if parts != [] { AllCalls(parts[..|parts| - 1]); }
  }

  lemma {:induction false} TextThenCalls(text: Part, parts: seq<Part>)
    requires text.Text?
    ensures SentCalls([text] + parts) == SentCalls(parts)
    decreases |parts|
  {
    if parts == [] {
      assert ([text] + parts)[..0] == [];
    } else {
      assert ([text] + parts)[..|parts|] == [text] + parts[..|parts| - 1];
      TextThenCalls(text, parts[..|parts| - 1]);
    }
  }

  /** A reply's parts are its text, when there is one, and then all its calls. */
  lemma CallsOfReply(reply: Reply, calls: nat)
    ensures TextParts(reply.text, reply.text == "") + SentCalls(ReplyParts(reply, calls)) == ReplyParts(reply, calls)
  {
    var made := Numbered(reply.toolCalls, calls);
    AllCalls(made);
    if reply.text == "" {
      assert [] + made == made;
    } else {
      TextThenCalls(Text(reply.text), made);
    }
  }

  class FixtureModel {
    var replies: seq<Reply>
    var last: Reply
    var calls: nat

    constructor (replies: seq<Reply>)
      ensures this.replies == replies && last == Reply("", [], false, None) && calls == 0
    {
      this.replies := replies;
      last := Reply("", [], false, None);
      calls := 0;
    }

    method Next(text: string) returns (reply: Reply)
      modifies this`replies, this`last
      ensures (reply, replies) == Turn(old(replies), old(last), text) && last == reply
    {
      var at := 0;
      while at < |replies| && !Matches(replies[at], text)
        invariant at <= |replies|
        invariant FirstMatch(replies, text) == at + FirstMatch(replies[at..], text)
      {
        assert replies[at..][1..] == replies[at + 1..];
        at := at + 1;
      }
      if at == |replies| {
        at := 0;
        while at < |replies| && replies[at].when.Some?
          invariant at <= |replies|
          invariant FirstFree(replies) == at + FirstFree(replies[at..])
        {
          assert replies[at..][1..] == replies[at + 1..];
          at := at + 1;
        }
      }
      if at < |replies| {
        last := replies[at];
        replies := replies[..at] + replies[at + 1..];
      }
      reply := last;
    }

    method ToolCalls(reply: Reply) returns (parts: seq<Part>)
      modifies this`calls
      ensures parts == Numbered(reply.toolCalls, old(calls)) && calls == old(calls) + |parts|
    {
      parts := [];
      ghost var all := Numbered(reply.toolCalls, old(calls));
      for i := 0 to |reply.toolCalls|
        invariant |parts| == i && calls == old(calls) + i
        invariant forall j | 0 <= j < i :: parts[j] == all[j]
      {
        calls := calls + 1;
        parts := parts + [ToolCall(CallId(calls), reply.toolCalls[i].name, reply.toolCalls[i].arguments)];
      }
    }

    method Typed(text: string) returns (reply: Reply, response: Response)
      modifies this
      ensures (reply, replies) == Turn(old(replies), old(last), text) && last == reply
      ensures response.parts == ReplyParts(reply, old(calls)) && calls == old(calls) + |reply.toolCalls|
      ensures response.finishReason == if reply.toolCalls == [] then Stop else FinishReason.ToolCalls
    {
      reply := Next(text);
      var parts := [];
      if reply.text != "" { parts := parts + [Text(reply.text)]; }
      var made := ToolCalls(reply);
      response := Response(parts + made, if reply.toolCalls == [] then Stop else FinishReason.ToolCalls);
    }

    /** `cancelled` is the first piece the cancel is seen before. What was sent is in `sent`. */
    method StreamTyped(req: Request, cancelled: Option<nat>)
      returns (result: Result<Response, Error>, sent: seq<Delta>)
      modifies this
      ensures req.schemaVersion != 1 ==>
        result == Err(UnknownVersion(req.schemaVersion)) && sent == []
        && replies == old(replies) && last == old(last) && calls == old(calls)
      ensures req.schemaVersion == 1 ==>
        && (last, replies) == Turn(old(replies), old(last), req.last)
        && calls == old(calls) + |last.toolCalls|
        && result.Err? == (cancelled.Some? && cancelled.value < |Pieces(last)|)
      ensures result.Ok? ==>
        result.value.parts == ReplyParts(last, old(calls)) == Fold(sent)
        && result.value.finishReason == if last.toolCalls == [] then Stop else FinishReason.ToolCalls
      ensures req.schemaVersion == 1 && result.Err? ==>
        && sent == Texts(Pieces(last))[..cancelled.value]
        && result.error == Cancelled(Response(Fold(sent), Unknown))
        && exists n: nat | n <= |last.text| :: Fold(sent) == TextParts(last.text[..n], sent == [])
    {
      sent := [];
      if req.schemaVersion != SCHEMA_VERSION { return Err(UnknownVersion(req.schemaVersion)), []; }
      var reply, response := Typed(req.last);
      ghost var before := calls - |reply.toolCalls|;
      hide Turn, Fold, ReplyParts, Pieces, SentCalls, TextParts, Texts;
      var fold := new DeltaFold();
      FoldNone();
      var stopped;
      sent, stopped := SendPieces(reply, cancelled, fold);
      StartFolds(reply, |sent|);
      if stopped {
        var partial := fold.IntoPartial();
        return Err(Cancelled(partial)), sent;
      }
      assert sent == Texts(Pieces(reply))[..|sent|];
      sent := SendCalls(response.parts, sent, fold);
      CallsOfReply(reply, before);
      result := Ok(response);
    }
  }

  /** A reply asked for whole, then handed over: `response` is what was answered,
      or nothing when the cancel came first. */
  method StreamWhole(response: Option<Response>) returns (result: Result<Response, Error>, sent: seq<Delta>)
    ensures response.None? ==> result == Err(Cancelled(Response([], Unknown))) && sent == []
    ensures response.Some? ==>
              result == Ok(response.value) && Fold(sent) == AsParts(sent) == Fold(Said(response.value.parts))
  {
    if response.None? { return Err(Cancelled(Response([], Unknown))), []; }
    sent := Of(response.value.parts);
    result := Ok(response.value);
  }
}
