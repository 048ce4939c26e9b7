/** Expressions written out as `when` text, and read back. */
module WhenText {
  import opened Basics
  import opened WhenParser
  import opened WhenLexer
  import WhenCursor

  /** What `parseWhen` makes of a text. */
  function ParseText(letter: Letters, engine: Engine, src: string): Result<Expr, WhenError> {
    match Lex(letter, src)
    case Ok(toks) => Parse(engine, toks)
    case Err(x) => Err(x)
  }

  method ParseWhen(letter: Letters, engine: Engine, src: string) returns (r: Result<Expr, WhenError>)
    ensures r == ParseText(letter, engine, src)
  {
    var toks :- Tokens(letter, src);
    var cursor := new WhenCursor.Cursor(engine, toks);
    r := cursor.Parse();
  }

  // ---- An expression as tokens

  /** How tightly an expression's outermost operator binds. */
  function Level(e: Expr): nat {
    match e
    case Or(_, _) => 0
    case And(_, _) => 1
    case Not(_) => 2
    case _ => 3
  }

  function ValueToken(v: Value): Token {
    match v
    case Flag(flag) => Word(if flag then "true" else "false")
    case Text(text) => Quoted(text)
  }

  /** In parentheses where something binding as tightly as `level` is called for. */
  function At(e: Expr, level: nat): seq<Token>
    decreases e, 1
  {
    if Level(e) < level then [LParen] + Body(e) + [RParen] else Body(e)
  }

  function Body(e: Expr): seq<Token>
    decreases e, 0
  {
    match e
    case Literal(value) => [Word(if value then "true" else "false")]
    case Key(key) => [Word(key)]
    case Not(x) => [Bang] + At(x, 2)
    case And(left, right) => At(left, 1) + [AndAnd] + At(right, 2)
    case Or(left, right) => At(left, 0) + [OrOr] + At(right, 1)
    case Equals(key, to, equal) => [Word(key), if equal then EqEq else BangEq, ValueToken(to)]
    case Matches(key, pattern, flags) => [Word(key), Tilde, Regex(pattern, flags)]
  }

  ghost predicate SaysAt(engine: Engine, toks: seq<Token>, i: nat, j: nat, e: Expr, level: nat)
    requires i <= j <= |toks|
  {
    if level == 0 then SaysOr(engine, toks, i, j, e)
    else if level == 1 then SaysAnd(engine, toks, i, j, e)
    else if level == 2 then SaysUnary(engine, toks, i, j, e)
    else SaysPrimary(engine, toks, i, j, e)
  }

  // ---- Which expressions can be written

  predicate AllWord(letter: Letters, s: string) { forall k | 0 <= k < |s| :: IsWord(letter, s[k]) }

  predicate WordOk(letter: Letters, s: string) { s != [] && AllWord(letter, s) && s != "in" }

  predicate TextOk(s: string) { '\'' !in s || '"' !in s }

  /** No `\/` and no lone `\` at the end: the tokenizer yields neither. */
  predicate PatternOk(p: string) {
    if p == [] then true
    else if p[0] == '\\' then |p| >= 2 && p[1] != '/' && PatternOk(p[2..])
    else PatternOk(p[1..])
  }

  predicate FlagsOk(s: string) { forall k | 0 <= k < |s| :: IsFlag(s[k]) }

  predicate KeyOk(letter: Letters, key: string) { WordOk(letter, key) && IsKey(Word(key)) }

  predicate Sayable(letter: Letters, engine: Engine, e: Expr) {
    match e
    case Literal(_) => true
    case Key(key) => KeyOk(letter, key)
    case Not(x) => Sayable(letter, engine, x)
    case And(left, right) => Sayable(letter, engine, left) && Sayable(letter, engine, right)
    case Or(left, right) => Sayable(letter, engine, left) && Sayable(letter, engine, right)
    case Equals(key, to, _) => KeyOk(letter, key) && (to.Text? ==> TextOk(to.text))
    case Matches(key, pattern, flags) =>
      KeyOk(letter, key) && PatternOk(pattern) && GoodFlags(flags) && engine(pattern, flags)
  }

  lemma Middle(toks: seq<Token>, i: nat, k: nat, j: nat, a: seq<Token>, t: Token, b: seq<Token>)
    requires i <= j <= |toks| && toks[i..j] == a + [t] + b && k == i + |a|
    ensures k < j && toks[k] == t && toks[i..k] == a && toks[k + 1..j] == b
  {
    assert toks[k] == toks[i..j][|a|];
    assert toks[i..k] == toks[i..j][..|a|];
    assert toks[k + 1..j] == toks[i..j][|a| + 1..];
  }

  lemma Inner(toks: seq<Token>, i: nat, j: nat)
    requires i + 2 <= j <= |toks|
    ensures toks[i + 1..j - 1] == toks[i..j][1..j - i - 1]
    ensures toks[i] == toks[i..j][0] && toks[j - 1] == toks[i..j][j - i - 1]
  {
    var s := toks[i..j];
    var t := s[1..j - i - 1];
    forall k | 0 <= k < |t| ensures t[k] == toks[i + 1..j - 1][k] {
      assert t[k] == s[k + 1] == toks[i + k + 1];
    }
  }

  lemma PrimaryIsUnary(engine: Engine, toks: seq<Token>, i: nat, j: nat, e: Expr)
    requires i <= j <= |toks| && SaysPrimary(engine, toks, i, j, e)
    ensures SaysUnary(engine, toks, i, j, e)
  {}

  lemma UnaryIsAnd(engine: Engine, toks: seq<Token>, i: nat, j: nat, e: Expr)
    requires i <= j <= |toks| && SaysUnary(engine, toks, i, j, e)
    ensures SaysAnd(engine, toks, i, j, e)
  {}

  lemma Loosen(engine: Engine, toks: seq<Token>, i: nat, j: nat, e: Expr, tight: nat, loose: nat)
    requires i <= j <= |toks| && SaysAt(engine, toks, i, j, e, tight) && loose <= tight <= 3
    ensures SaysAt(engine, toks, i, j, e, loose)
  {
    if tight == 3 && loose <= 2 { PrimaryIsUnary(engine, toks, i, j, e); }
    if tight >= 2 && loose <= 1 { UnaryIsAnd(engine, toks, i, j, e); }
  }

  lemma {:induction false} AtSays(
    letter: Letters, engine: Engine, toks: seq<Token>, i: nat, j: nat, e: Expr, level: nat)
    requires i <= j <= |toks| && toks[i..j] == At(e, level) && level <= 2 && Sayable(letter, engine, e)
    ensures SaysAt(engine, toks, i, j, e, level)
    decreases e, 1
  {
    if Level(e) < level {
      var s := toks[i..j];
      assert At(e, level) == [LParen] + Body(e) + [RParen];
      assert |s| == |Body(e)| + 2 && s[0] == LParen && s[|Body(e)| + 1] == RParen && s[1..|Body(e)| + 1] == Body(e);
      Inner(toks, i, j);
      BodySays(letter, engine, toks, i + 1, j - 1, e);
      Loosen(engine, toks, i + 1, j - 1, e, Level(e), 0);
      assert SaysPrimary(engine, toks, i, j, e);
      Loosen(engine, toks, i, j, e, 3, level);
    } else {
      BodySays(letter, engine, toks, i, j, e);
      Loosen(engine, toks, i, j, e, Level(e), level);
    }
  }

  lemma {:induction false} BodySays(letter: Letters, engine: Engine, toks: seq<Token>, i: nat, j: nat, e: Expr)
    requires i <= j <= |toks| && toks[i..j] == Body(e) && Sayable(letter, engine, e)
    ensures SaysAt(engine, toks, i, j, e, Level(e))
    decreases e, 0
  {
    match e
    case Not(x) =>
      assert toks[i] == toks[i..j][0];
      assert toks[i + 1..j] == toks[i..j][1..];
      AtSays(letter, engine, toks, i + 1, j, x, 2);
    case And(left, right) =>
      var k := i + |At(left, 1)|;
      Middle(toks, i, k, j, At(left, 1), AndAnd, At(right, 2));
      AtSays(letter, engine, toks, i, k, left, 1);
      AtSays(letter, engine, toks, k + 1, j, right, 2);
    case Or(left, right) =>
      var k := i + |At(left, 0)|;
      Middle(toks, i, k, j, At(left, 0), OrOr, At(right, 1));
      AtSays(letter, engine, toks, i, k, left, 0);
      AtSays(letter, engine, toks, k + 1, j, right, 1);
    case Equals(key, to, equal) =>
      assert SaysAtom(engine, toks[i..j], e);
    case _ =>
      assert SaysAtom(engine, toks[i..j], e);
  }

  /** An expression's tokens parse back to it. */
  lemma BodyParses(letter: Letters, engine: Engine, e: Expr)
    requires Sayable(letter, engine, e)
    ensures Parse(engine, Body(e)) == Ok(e)
  {
    var toks := Body(e);
    assert toks[0..|toks|] == toks;
    BodySays(letter, engine, toks, 0, |toks|, e);
    Loosen(engine, toks, 0, |toks|, e, Level(e), 0);
    ParsesExactlyTheGrammar(engine, toks, e);
  }

  // ---- Tokens as characters

  function Escaped(p: string): string
    requires PatternOk(p)
  {
    if p == [] then []
    else if p[0] == '\\' then p[..2] + Escaped(p[2..])
    else (if p[0] == '/' then "\\/" else [p[0]]) + Escaped(p[1..])
  }

  predicate TokenOk(letter: Letters, t: Token) {
    match t
    case Word(v) => WordOk(letter, v)
    case Quoted(v) => TextOk(v)
    case Regex(pattern, flags) => PatternOk(pattern) && FlagsOk(flags)
    case Unsupported(_) => false
    case _ => true
  }

  function Spelling(letter: Letters, t: Token): string
    requires TokenOk(letter, t)
  {
    match t
    case LParen => "("
    case RParen => ")"
    case Bang => "!"
    case AndAnd => "&&"
    case OrOr => "||"
    case EqEq => "=="
    case BangEq => "!="
    case Tilde => "=~"
    case Word(v) => v
    case Quoted(v) => var quote := if '\'' in v then '"' else '\''; [quote] + v + [quote]
    case Regex(pattern, flags) => "/" + Escaped(pattern) + "/" + flags
  }

  predicate TokensOk(letter: Letters, toks: seq<Token>) { forall t | t in toks :: TokenOk(letter, t) }

  /** A regular expression stands after each `=~`, and nowhere else. */
  predicate Paired(toks: seq<Token>) {
    if toks == [] then true
    else if toks[0].Tilde? then |toks| >= 2 && toks[1].Regex? && Paired(toks[2..])
    else !toks[0].Regex? && Paired(toks[1..])
  }

  /** Each token followed by a space. */
  function Spelled(letter: Letters, toks: seq<Token>): string
    requires TokensOk(letter, toks)
  {
    if toks == [] then "" else Spelling(letter, toks[0]) + " " + Spelled(letter, toks[1..])
  }

  lemma {:induction false} RunThen(p: char -> bool, w: string, rest: string)
    requires forall k | 0 <= k < |w| :: p(w[k])
    requires rest == [] || !p(rest[0])
    ensures RunLength(p, w + rest) == |w|
  {
    if w == [] {
      assert w + rest == rest;
    } else {
      assert (w + rest)[1..] == w[1..] + rest;
      RunThen(p, w[1..], rest);
    }
  }

  /** A pattern read behind one character, escaped or not. */
  lemma PatternOn(s: string, p: string, n: nat, c: char)
    requires Pattern(s) == Ok((p, n))
    ensures c != '\\' && c != '/' ==> Pattern([c] + s) == Ok(([c] + p, n + 1))
    ensures c == '/' ==> Pattern("\\/" + s) == Ok(([c] + p, n + 2))
    ensures c != '/' ==> Pattern(['\\', c] + s) == Ok((['\\', c] + p, n + 2))
  {
    assert ([c] + s)[1..] == s && ("\\/" + s)[2..] == s && (['\\', c] + s)[2..] == s;
  }

  lemma EscapedOn(p: string)
    requires PatternOk(p) && p != []
    ensures p[0] == '\\' ==> |p| >= 2 && p[1] != '/' && PatternOk(p[2..])
                              && p == ['\\', p[1]] + p[2..] && Escaped(p) == ['\\', p[1]] + Escaped(p[2..])
    ensures p[0] != '\\' ==> PatternOk(p[1..]) && p == [p[0]] + p[1..]
                              && Escaped(p) == (if p[0] == '/' then "\\/" else [p[0]]) + Escaped(p[1..])
  {}

  lemma FourJoined(a: string, b: string, c: string, d: string)
    ensures a + b + c + d == a + (b + c + d)
  {}

  lemma {:induction false} EscapedReads(p: string, rest: string)
    requires PatternOk(p)
    ensures Pattern(Escaped(p) + "/" + rest) == Ok((p, |Escaped(p)| + 1))
  {
    if p == [] {
      assert Escaped(p) + "/" + rest == "/" + rest;
    } else {
      EscapedOn(p);
      hide Pattern, PatternOk, Escaped;
      var n := if p[0] == '\\' then 2 else 1;
      var more, s := Escaped(p[n..]), Escaped(p[n..]) + "/" + rest;
      EscapedReads(p[n..], rest);
      PatternOn(s, p[n..], |more| + 1, p[n - 1]);
      FourJoined(Escaped(p)[..|Escaped(p)| - |more|], more, "/", rest);
    }
  }

  lemma {:induction false} QuotedReads(quote: char, v: string, rest: string)
    requires quote !in v
    ensures UpTo(quote, v + [quote] + rest) == Ok(v)
  {
    var s := v + [quote] + rest;
    if v == [] {
      assert s[0] == quote;
    } else {
      QuotedReads(quote, v[1..], rest);
      assert s[1..] == v[1..] + [quote] + rest;
      assert v == [v[0]] + v[1..];
    }
  }

  lemma NotAMark(letter: Letters, c: char)
    requires Sane(letter) && IsWord(letter, c)
    ensures c !in MARKS
  {
    assert c in MARKS ==> !letter(c) && c !in "._-:/@#";
  }

  /** What does not start with a word character starts no word. */
  lemma MarkStartsNoWord(letter: Letters, c: char)
    requires Sane(letter) && c in MARKS
    ensures !IsWord(letter, c)
  {
    assert !letter(c) && c !in "._-:/@#";
  }

  /** A word followed by a space and then text that does not go on with `in` is read whole. */
  lemma WordReads(letter: Letters, v: string, rest: string)
    requires Sane(letter) && WordOk(letter, v)
    requires NextWord(letter, " " + rest) != "in"
    ensures LexOne(letter, v + " " + rest) == Ok(Lexeme([Word(v)], |v|))
  {
    var s := v + " " + rest;
    assert s == v + (" " + rest);
    MarkStartsNoWord(letter, ' ');
    RunThen(InWord(letter), v, " " + rest);
    assert s[..|v|] == v && s[|v|..] == " " + rest;
    assert IsWord(letter, v[0]);
    NotAMark(letter, v[0]);
  }

  lemma FlagsEnd(flags: string, rest: string)
    requires FlagsOk(flags)
    ensures RunLength(IsFlag, flags + (" " + rest)) == |flags|
  {
    RunThen(IsFlag, flags, " " + rest);
  }

  lemma OneSpace(rest: string)
    requires rest != [] ==> rest[0] != ' '
    ensures RunLength(IsSpace, " " + rest) == 1
  {
    RunThen(IsSpace, " ", rest);
  }

  lemma RegexReads(pattern: string, flags: string, rest: string)
    requires PatternOk(pattern) && FlagsOk(flags)
    ensures LexRegex(" /" + (Escaped(pattern) + "/" + (flags + (" " + rest))))
         == Ok(Lexeme([Tilde, Regex(pattern, flags)], |Escaped(pattern)| + |flags| + 3))
  {
    hide Pattern, Escaped, PatternOk, FlagsOk, RunLength;
    var tail := flags + (" " + rest);
    var inner := Escaped(pattern) + "/" + tail;
    var s := " /" + inner;
    OneSpace("/" + inner);
    assert s == " " + ("/" + inner);
    EscapedReads(pattern, tail);
    assert s[2..] == inner;
    var after := |Escaped(pattern)| + 3;
    assert s[after..] == tail;
    FlagsEnd(flags, rest);
    assert s[after..after + |flags|] == flags;
  }

  lemma NextIsEmpty(letter: Letters)
    ensures NextWord(letter, " " + "") == ""
  {
    OneSpace("");
  }

  lemma WordSpelling(letter: Letters, t: Token)
    requires Sane(letter) && TokenOk(letter, t) && t.Word?
    ensures WordOk(letter, Spelling(letter, t)) && Spelling(letter, t)[0] != ' ' && Spelling(letter, t) != "in"
  {
    NotAMark(letter, t.v[0]);
  }

  lemma FirstIsMark(letter: Letters, t: Token)
    requires TokenOk(letter, t) && !t.Word? && !t.Regex?
    ensures Spelling(letter, t) != [] && Spelling(letter, t)[0] in MARKS && Spelling(letter, t)[0] != ' '
  {}

  lemma NextIsTheWord(letter: Letters, w: string, tail: string)
    requires Sane(letter) && WordOk(letter, w) && w[0] != ' ' && tail != [] && tail[0] == ' '
    ensures NextWord(letter, " " + (w + tail)) == w
  {
    var word := InWord(letter);
    OneSpace(w + tail);
    assert (" " + (w + tail))[1..] == w + tail;
    MarkStartsNoWord(letter, ' ');
    RunThen(word, w, tail);
    assert (w + tail)[..|w|] == w;
  }

  lemma NextIsNone(letter: Letters, rest: string)
    requires Sane(letter) && rest != [] && rest[0] in MARKS && rest[0] != ' '
    ensures NextWord(letter, " " + rest) == ""
  {
    OneSpace(rest);
    assert (" " + rest)[1..] == rest;
    MarkStartsNoWord(letter, rest[0]);
  }

  /** The word after a space is the first token's, if that is a word. */
  lemma NextSpelled(letter: Letters, toks: seq<Token>)
    requires Sane(letter) && TokensOk(letter, toks) && Paired(toks)
    ensures NextWord(letter, " " + Spelled(letter, toks)) != "in"
  {
    hide Spelling, WordOk, Sane, NextWord;
    var rest := Spelled(letter, toks);
    if toks == [] {
      NextIsEmpty(letter);
    } else {
      var t := toks[0];
      assert t in toks;
      var first := Spelling(letter, t);
      var tail := " " + Spelled(letter, toks[1..]);
      assert rest == first + tail;
      if t.Word? {
        WordSpelling(letter, t);
        NextIsTheWord(letter, first, tail);
      } else {
        FirstIsMark(letter, t);
        NextIsNone(letter, rest);
      }
    }
  }

  lemma QuotedSpelling(letter: Letters, t: Token, rest: string) returns (quote: char)
    requires t.Quoted? && TokenOk(letter, t)
    ensures quote !in t.v && (quote == '\'' || quote == '"') && |Spelling(letter, t)| == |t.v| + 2
    ensures Spelling(letter, t) + " " + rest == [quote] + (t.v + [quote] + (" " + rest))
  {
    quote := if '\'' in t.v then '"' else '\'';
    assert Spelling(letter, t) == [quote] + t.v + [quote];
  }

  lemma QuotedLexes(letter: Letters, quote: char, v: string, after: string)
    requires (quote == '\'' || quote == '"') && UpTo(quote, after) == Ok(v)
    ensures LexOne(letter, [quote] + after) == Ok(Lexeme([Quoted(v)], |v| + 2))
  {
    hide LexRegex, LexWord, UpTo;
    assert ([quote] + after)[1..] == after;
  }

  lemma QuotedTokenReads(letter: Letters, t: Token, rest: string)
    requires t.Quoted? && TokenOk(letter, t)
    ensures LexOne(letter, Spelling(letter, t) + " " + rest) == Ok(Lexeme([t], |Spelling(letter, t)|))
  {
    var quote := QuotedSpelling(letter, t, rest);
    hide LexOne, UpTo, Spelling, TokenOk;
    QuotedReads(quote, t.v, " " + rest);
    QuotedLexes(letter, quote, t.v, t.v + [quote] + (" " + rest));
  }

  lemma PlainReads(letter: Letters, t: Token, rest: string)
    requires Sane(letter) && TokenOk(letter, t) && !t.Tilde? && !t.Regex? && !t.Word?
    ensures LexOne(letter, Spelling(letter, t) + " " + rest) == Ok(Lexeme([t], |Spelling(letter, t)|))
  {
    hide LexRegex, LexWord, UpTo, Sane;
    if t.Quoted? { QuotedTokenReads(letter, t, rest); }
  }

  lemma SpaceReads(letter: Letters, rest: string)
    ensures Lex(letter, " " + rest) == Lex(letter, rest)
  {
    assert (" " + rest)[1..] == rest;
    ThenThen([], [], Lex(letter, rest));
  }

  lemma SpaceReadsOn(letter: Letters, rest: string)
    ensures Lex(letter, " " + rest) == Lex(letter, rest)
  {
    SpaceReads(letter, rest);
  }

  /** A lexeme read, and a space after it, leave the rest to be read. */
  lemma ThenRest(letter: Letters, s: string, toks: seq<Token>, length: nat, rest: string)
    requires s != [] && LexOne(letter, s) == Ok(Lexeme(toks, length)) && s[length..] == " " + rest
    ensures Lex(letter, s) == Then(toks, Lex(letter, rest))
  {
    hide LexOne;
    SpaceReadsOn(letter, rest);
  }

  lemma NothingReads(letter: Letters)
    ensures Lex(letter, "") == Ok([])
  {}

  lemma WordTokenReads(letter: Letters, t: Token, rest: string)
    requires Sane(letter) && t.Word? && TokenOk(letter, t) && NextWord(letter, " " + rest) != "in"
    ensures Spelling(letter, t) == t.v && LexOne(letter, Spelling(letter, t) + " " + rest) == Ok(Lexeme([t], |t.v|))
  {
    WordReads(letter, t.v, rest);
  }

  lemma SpelledFirst(letter: Letters, toks: seq<Token>)
    requires toks != [] && TokensOk(letter, toks)
    ensures TokensOk(letter, toks[1..])
    ensures Spelled(letter, toks) == Spelling(letter, toks[0]) + (" " + Spelled(letter, toks[1..]))
  {
    var first, rest := Spelling(letter, toks[0]), Spelled(letter, toks[1..]);
    hide Spelling;
    assert first + " " + rest == first + (" " + rest);
  }

  lemma TildeThen(letter: Letters, t: Token, more: string)
    requires t.Tilde?
    ensures TokenOk(letter, t) && Spelling(letter, t) + (" " + more) == "=~ " + more
  {}

  lemma SpelledPair(letter: Letters, toks: seq<Token>)
    requires |toks| >= 2 && TokensOk(letter, toks) && toks[0].Tilde? && TokenOk(letter, toks[1])
    ensures Spelled(letter, toks) == "=~ " + (Spelling(letter, toks[1]) + (" " + Spelled(letter, toks[2..])))
  {
    hide Spelling, Spelled, TokensOk, TokenOk;
    SpelledFirst(letter, toks);
    SpelledFirst(letter, toks[1..]);
    assert toks[1..][1..] == toks[2..];
    TildeThen(letter, toks[0], Spelled(letter, toks[1..]));
  }

  lemma RegexSpelling(letter: Letters, r: Token, rest: string)
    requires r.Regex? && TokenOk(letter, r)
    ensures |Spelling(letter, r)| == |Escaped(r.pattern)| + |r.flags| + 2
    ensures " " + (Spelling(letter, r) + rest) == " /" + (Escaped(r.pattern) + "/" + (r.flags + rest))
  {
    hide Escaped;
  }

  lemma TildeLexes(letter: Letters, inner: string, toks: seq<Token>, length: nat)
    requires LexRegex(inner) == Ok(Lexeme(toks, length))
    ensures LexOne(letter, "=~" + inner) == Ok(Lexeme(toks, length + 2))
  {
    hide LexRegex;
    assert ("=~" + inner)[2..] == inner;
  }

  lemma TildeReads(letter: Letters, r: Token, rest: string)
    requires r.Regex? && TokenOk(letter, r)
    ensures Lex(letter, "=~ " + (Spelling(letter, r) + (" " + rest))) == Then([Tilde, r], Lex(letter, rest))
  {
    hide Lex, Spelling, Escaped, LexRegex, LexOne;
    var inner := " /" + (Escaped(r.pattern) + "/" + (r.flags + (" " + rest)));
    var s := "=~ " + (Spelling(letter, r) + (" " + rest));
    var length := |Escaped(r.pattern)| + |r.flags| + 3;
    RegexSpelling(letter, r, " " + rest);
    RegexReads(r.pattern, r.flags, rest);
    TildeLexes(letter, inner, [Tilde, r], length);
    assert s == "=~" + inner;
    assert s[length + 2..] == " " + rest;
    ThenRest(letter, s, [Tilde, r], length + 2, rest);
  }

  /** What is spelled is read back, token for token. */
  lemma {:induction false} SpelledReads(letter: Letters, toks: seq<Token>)
    requires Sane(letter) && TokensOk(letter, toks) && Paired(toks)
    ensures Lex(letter, Spelled(letter, toks)) == Ok(toks)
    decreases |toks|
  {
    hide Lex, LexOne, Sane, Spelling;
    if toks == [] {
      NothingReads(letter);
    } else {
      var t := toks[0];
      assert t in toks;
      if t.Tilde? {
        assert toks[1] in toks;
        var r := toks[1];
        SpelledReads(letter, toks[2..]);
        TildeReads(letter, r, Spelled(letter, toks[2..]));
        assert toks[1..][1..] == toks[2..];
        SpelledPair(letter, toks);
        assert [Tilde, r] + toks[2..] == toks;
      } else {
        var rest := Spelled(letter, toks[1..]);
        SpelledReads(letter, toks[1..]);
        if t.Word? {
          NextSpelled(letter, toks[1..]);
          WordTokenReads(letter, t, rest);
        } else {
          PlainReads(letter, t, rest);
        }
        var s := Spelled(letter, toks);
        assert s[|Spelling(letter, t)|..] == " " + rest;
        ThenRest(letter, s, [t], |Spelling(letter, t)|, rest);
        assert [t] + toks[1..] == toks;
      }
    }
  }

  // ---- There and back

  lemma GoodAreOk(flags: string)
    requires GoodFlags(flags)
    ensures FlagsOk(flags)
  {
    assert forall k | 0 <= k < |flags| :: flags[k] in flags;
  }

  lemma {:induction false} PairedThen(a: seq<Token>, b: seq<Token>)
    requires Paired(a) && Paired(b)
    ensures Paired(a + b)
    decreases |a|
  {
    if a == [] {
      assert a + b == b;
    } else {
      var n := if a[0].Tilde? then 2 else 1;
      assert (a + b)[n..] == a[n..] + b;
      PairedThen(a[n..], b);
    }
  }

  lemma WordsOk(letter: Letters)
    requires Sane(letter)
    ensures WordOk(letter, "true") && WordOk(letter, "false")
  {}

  lemma TokensThen(letter: Letters, a: seq<Token>, b: seq<Token>)
    requires TokensOk(letter, a) && TokensOk(letter, b) && Paired(a) && Paired(b)
    ensures TokensOk(letter, a + b) && Paired(a + b)
  {
    PairedThen(a, b);
  }

  lemma OneToken(letter: Letters, t: Token)
    requires TokenOk(letter, t) && !t.Tilde? && !t.Regex?
    ensures TokensOk(letter, [t]) && Paired([t])
  {
    assert [t][1..] == [];
  }

  lemma TildeRegex(letter: Letters, r: Token)
    requires r.Regex? && TokenOk(letter, r)
    ensures TokensOk(letter, [Tilde, r]) && Paired([Tilde, r])
  {
    assert [Tilde, r][2..] == [];
  }

  lemma Joined(letter: Letters, a: seq<Token>, t: Token, b: seq<Token>)
    requires TokensOk(letter, a) && TokensOk(letter, b) && Paired(a) && Paired(b)
    requires TokenOk(letter, t) && !t.Tilde? && !t.Regex?
    ensures TokensOk(letter, a + [t] + b) && Paired(a + [t] + b)
  {
    OneToken(letter, t);
    TokensThen(letter, a, [t]);
    TokensThen(letter, a + [t], b);
  }

  lemma {:induction false} AtOk(letter: Letters, engine: Engine, e: Expr, level: nat)
    requires Sane(letter) && Sayable(letter, engine, e)
    ensures TokensOk(letter, At(e, level)) && Paired(At(e, level))
    decreases e, 1
  {
    hide TokensOk, Paired, Sane;
    BodyOk(letter, engine, e);
    OneToken(letter, LParen);
    OneToken(letter, RParen);
    TokensThen(letter, [LParen], Body(e));
    TokensThen(letter, [LParen] + Body(e), [RParen]);
  }

  lemma {:induction false} BodyOk(letter: Letters, engine: Engine, e: Expr)
    requires Sane(letter) && Sayable(letter, engine, e)
    ensures TokensOk(letter, Body(e)) && Paired(Body(e))
    decreases e, 0
  {
    hide WordOk, IsWord, Sane, PatternOk, TokensOk, Paired;
    WordsOk(letter);
    match e
    case Not(x) =>
      AtOk(letter, engine, x, 2);
      OneToken(letter, Bang);
      TokensThen(letter, [Bang], At(x, 2));
    case And(left, right) =>
      AtOk(letter, engine, left, 1);
      AtOk(letter, engine, right, 2);
      Joined(letter, At(left, 1), AndAnd, At(right, 2));
    case Or(left, right) =>
      AtOk(letter, engine, left, 0);
      AtOk(letter, engine, right, 1);
      Joined(letter, At(left, 0), OrOr, At(right, 1));
    case Equals(key, to, equal) =>
      OneToken(letter, Word(key));
      OneToken(letter, ValueToken(to));
      Joined(letter, [Word(key)], if equal then EqEq else BangEq, [ValueToken(to)]);
      assert Body(e) == [Word(key)] + [if equal then EqEq else BangEq] + [ValueToken(to)];
    case Matches(key, pattern, flags) =>
      GoodAreOk(flags);
      OneToken(letter, Word(key));
      TildeRegex(letter, Regex(pattern, flags));
      TokensThen(letter, [Word(key)], [Tilde, Regex(pattern, flags)]);
      assert Body(e) == [Word(key)] + [Tilde, Regex(pattern, flags)];
    case Literal(value) => OneToken(letter, Word(if value then "true" else "false"));
    case Key(key) => OneToken(letter, Word(key));
  }

  /** An expression as text. */
  ghost function Rendered(letter: Letters, engine: Engine, e: Expr): string
    requires Sane(letter) && Sayable(letter, engine, e)
  {
    BodyOk(letter, engine, e);
    Spelled(letter, Body(e))
  }

  /** Every expression that can be written parses back to itself. */
  lemma RenderedParses(letter: Letters, engine: Engine, e: Expr)
    requires Sane(letter) && Sayable(letter, engine, e)
    ensures ParseText(letter, engine, Rendered(letter, engine, e)) == Ok(e)
  {
    BodyOk(letter, engine, e);
    SpelledReads(letter, Body(e));
    BodyParses(letter, engine, e);
  }

  // ---- Every text that parses says something that can be written

  /** What the tokenizer yields: a good token, or one the parser refuses. */
  predicate LexedOk(letter: Letters, t: Token) { t.Unsupported? || TokenOk(letter, t) }

  lemma {:induction false} PatternIsOk(s: string)
    requires Pattern(s).Ok?
    ensures PatternOk(Pattern(s).value.0)
  {
    var p := Pattern(s).value.0;
    if s[0] == '\\' {
      PatternIsOk(s[2..]);
      var rest := Pattern(s[2..]).value.0;
      if s[1] == '/' { assert p[1..] == rest; } else { assert p[2..] == rest; }
    } else if s[0] != '/' {
      PatternIsOk(s[1..]);
      assert p[1..] == Pattern(s[1..]).value.0;
    }
  }

  lemma WordIsOk(letter: Letters, s: string)
    requires s != [] && IsWord(letter, s[0])
    ensures forall t | t in LexWord(letter, s).tokens :: LexedOk(letter, t)
  {
    RunIs(InWord(letter), s);
  }

  lemma FlagsAreOk(s: string)
    ensures FlagsOk(s[..RunLength(IsFlag, s)])
  {
    RunIs(IsFlag, s);
  }

  lemma RegexIsOk(letter: Letters, s: string)
    requires LexRegex(s).Ok?
    ensures forall t | t in LexRegex(s).value.tokens :: LexedOk(letter, t)
  {
    hide RunLength, Pattern, PatternOk, FlagsOk;
    var spaces := RunLength(IsSpace, s);
    var from := s[spaces + 1..];
    PatternIsOk(from);
    var (pattern, n) := Pattern(from).value;
    var at := spaces + 1 + n;
    var after := s[at..];
    FlagsAreOk(after);
    var flags := RunLength(IsFlag, after);
    assert after[..flags] == s[at..at + flags];
    assert LexRegex(s).value.tokens == [Tilde, Regex(pattern, after[..flags])];
    assert LexedOk(letter, Regex(pattern, after[..flags])) && LexedOk(letter, Tilde);
  }

  lemma LexOneIsOk(letter: Letters, s: string)
    requires s != [] && LexOne(letter, s).Ok?
    ensures forall t | t in LexOne(letter, s).value.tokens :: LexedOk(letter, t)
  {
    hide LexRegex, LexWord;
    if s[0] == '=' && CharAt(s, 1) == Some('~') {
      if LexRegex(s[2..]).Ok? { RegexIsOk(letter, s[2..]); }
    } else if IsWord(letter, s[0]) {
      WordIsOk(letter, s);
    }
  }

  lemma {:induction false} LexIsOk(letter: Letters, s: string)
    requires Lex(letter, s).Ok?
    ensures forall t | t in Lex(letter, s).value :: LexedOk(letter, t)
    decreases |s|
  {
    hide LexOne, LexedOk;
    if s != [] {
      var x := LexOne(letter, s).value;
      LexOneIsOk(letter, s);
      LexIsOk(letter, s[x.length..]);
    }
  }

  lemma WordIsText(letter: Letters, s: string)
    requires Sane(letter) && AllWord(letter, s)
    ensures TextOk(s)
  {
    forall k | 0 <= k < |s| ensures s[k] != '\'' { NotAMark(letter, s[k]); }
  }

  lemma AtomIsSayable(letter: Letters, engine: Engine, s: seq<Token>, e: Expr)
    requires SaysAtom(engine, s, e) && Sane(letter) && forall t | t in s :: LexedOk(letter, t)
    ensures Sayable(letter, engine, e)
  {
    if !e.Literal? {
      assert s[0] in s;
      if !e.Key? {
        assert s[2] in s;
        if s[2].Word? { WordIsText(letter, s[2].v); }
      }
    }
  }

  lemma {:induction false} SaidIsSayable(
    letter: Letters, engine: Engine, toks: seq<Token>, i: nat, j: nat, e: Expr, level: nat)
    requires i <= j <= |toks| && level <= 3 && SaysAt(engine, toks, i, j, e, level) && Sane(letter)
    requires forall t | t in toks :: LexedOk(letter, t)
    ensures Sayable(letter, engine, e)
    decreases j - i, 3 - level
  {
    if level == 0 && !SaysAnd(engine, toks, i, j, e) {
      var k :| i <= k < j && toks[k] == OrOr
               && SaysOr(engine, toks, i, k, e.left) && SaysAnd(engine, toks, k + 1, j, e.right);
      SaidIsSayable(letter, engine, toks, i, k, e.left, 0);
      SaidIsSayable(letter, engine, toks, k + 1, j, e.right, 1);
    } else if level == 1 && !SaysUnary(engine, toks, i, j, e) {
      var k :| i <= k < j && toks[k] == AndAnd
               && SaysAnd(engine, toks, i, k, e.left) && SaysUnary(engine, toks, k + 1, j, e.right);
      SaidIsSayable(letter, engine, toks, i, k, e.left, 1);
      SaidIsSayable(letter, engine, toks, k + 1, j, e.right, 2);
    } else if level == 2 && !SaysPrimary(engine, toks, i, j, e) {
      SaidIsSayable(letter, engine, toks, i + 1, j, e.expr, 2);
    } else if level < 3 {
      SaidIsSayable(letter, engine, toks, i, j, e, level + 1);
    } else if SaysAtom(engine, toks[i..j], e) {
      AtomIsSayable(letter, engine, toks[i..j], e);
    } else {
      SaidIsSayable(letter, engine, toks, i + 1, j - 1, e, 0);
    }
  }

  lemma ParsedIsSayable(letter: Letters, engine: Engine, src: string)
    requires Sane(letter) && ParseText(letter, engine, src).Ok?
    ensures Sayable(letter, engine, ParseText(letter, engine, src).value)
  {
    var toks := Lex(letter, src).value;
    var e := ParseText(letter, engine, src).value;
    LexIsOk(letter, src);
    ParsesExactlyTheGrammar(engine, toks, e);
    SaidIsSayable(letter, engine, toks, 0, |toks|, e, 0);
  }

  /** The expressions that can be written are exactly those some text says. */
  lemma SayableIffSaid(letter: Letters, engine: Engine, e: Expr)
    requires Sane(letter)
    ensures Sayable(letter, engine, e) <==> exists src :: ParseText(letter, engine, src) == Ok(e)
  {
    if Sayable(letter, engine, e) {
      RenderedParses(letter, engine, e);
      assert ParseText(letter, engine, Rendered(letter, engine, e)) == Ok(e);
    }
    if src :| ParseText(letter, engine, src) == Ok(e) { ParsedIsSayable(letter, engine, src); }
  }

  /** Whatever a text says, rendering that and parsing again says the same. */
  lemma RenderingKeepsMeaning(letter: Letters, engine: Engine, src: string)
    requires Sane(letter) && ParseText(letter, engine, src).Ok?
    ensures var e := ParseText(letter, engine, src).value;
      && Sayable(letter, engine, e)
      && ParseText(letter, engine, Rendered(letter, engine, e)) == Ok(e)
  {
    ParsedIsSayable(letter, engine, src);
    RenderedParses(letter, engine, ParseText(letter, engine, src).value);
  }
}
