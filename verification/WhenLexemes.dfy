/**
 The lexemes of a `when` text, and that the tokenizer reads a text just as they cut it.
 */
module WhenLexemes {
  import opened Basics
  import opened WhenParser
  import opened WhenLexer
  import opened WhenText

  // ---- What a lexeme is

  /** A word goes on at the start of `s`. */
  predicate WordGoesOn(letter: Letters, s: string) { s != "" && IsWord(letter, s[0]) }

  predicate AllSpaces(s: string) { forall i | 0 <= i < |s| :: s[i] == ' ' }

  /** After `k` spaces comes the word `in`, whole. */
  ghost predicate InComesAfter(letter: Letters, s: string, k: nat) {
    k + 2 <= |s| && AllSpaces(s[..k]) && s[k..k + 2] == "in" && !WordGoesOn(letter, s[k + 2..])
  }

  /** `piece`, with `after` behind it, is one of the operators that are not supported. */
  ghost predicate SaysUnsupported(letter: Letters, piece: string, after: string, op: string) {
    || (piece == op && (op == "<=" || op == ">="))
    || (piece == op && (op == "<" || op == ">") && !("=" <= after))
    || (piece == op == "in" && !WordGoesOn(letter, after))
    || (op == "not in" && |piece| > 5 && piece[..3] == "not" && InComesAfter(letter, piece[3..] + after, |piece| - 5))
  }

  /** `piece` is `=~`, spaces, and a pattern between slashes with its flags. */
  ghost predicate SaysRegex(piece: string, after: string, pattern: string, flags: string) {
    && PatternOk(pattern) && FlagsOk(flags) && (after != "" ==> !IsFlag(after[0]))
    && exists spaces :: AllSpaces(spaces) && piece == "=~" + (spaces + ("/" + (Escaped(pattern) + "/" + flags)))
  }

  /** `piece`, with `after` behind it, is a lexeme and says `toks`. */
  ghost predicate IsLexeme(letter: Letters, piece: string, after: string, toks: seq<Token>) {
    if |toks| == 0 then piece == " " || piece == "\t" || piece == "\n"
    else if |toks| == 2 then
      toks[0] == Tilde && toks[1].Regex? && SaysRegex(piece, after, toks[1].pattern, toks[1].flags)
    else
      |toks| == 1
      && match toks[0]
         case LParen => piece == "("
         case RParen => piece == ")"
         case AndAnd => piece == "&&"
         case OrOr => piece == "||"
         case EqEq => piece == "===" || (piece == "==" && !("=" <= after))
         case BangEq => piece == "!==" || (piece == "!=" && !("=" <= after))
         case Bang => piece == "!" && !("=" <= after)
         case Unsupported(op) => SaysUnsupported(letter, piece, after, op)
         case Quoted(v) => (piece == "'" + v + "'" && '\'' !in v) || (piece == "\"" + v + "\"" && '"' !in v)
         case Word(w) =>
           && piece == w && w != "" && AllWord(letter, w) && !WordGoesOn(letter, after)
           && w != "in" && !(w == "not" && exists k: nat :: InComesAfter(letter, after, k))
         case _ => false
  }

  ghost predicate ReadsFirst(letter: Letters, s: string, toks: seq<Token>, n: nat, k: nat) {
    0 < n <= |s| && k <= |toks| && IsLexeme(letter, s[..n], s[n..], toks[..k])
  }

  /** `s` is cut into lexemes, which say `toks`. */
  ghost predicate Reads(letter: Letters, s: string, toks: seq<Token>)
    decreases |s|
  {
    if s == "" then toks == []
    else exists n: nat, k: nat :: ReadsFirst(letter, s, toks, n, k) && Reads(letter, s[n..], toks[k..])
  }

  /** The characters of a word besides letters and digits. */
  lemma WordCharsAre(letter: Letters, c: char)
    ensures IsWord(letter, c)
            <==> letter(c) || c == '.' || c == '_' || c == '-' || c == ':' || c == '/' || c == '@' || c == '#'
  {}

  /** The characters read as flags: ASCII letters. */
  lemma FlagCharsAre(c: char)
    ensures IsFlag(c) <==> c in LOWER || c in UPPER
  {
    AsciiAre(c);
    hide LOWER, UPPER, DIGITS;
  }

  // ---- Runs of characters

  lemma RunIsWord(letter: Letters, w: string, after: string)
    requires AllWord(letter, w) && !WordGoesOn(letter, after)
    ensures RunLength(InWord(letter), w + after) == |w|
  {
    RunThen(InWord(letter), w, after);
  }

  lemma WordIsRun(letter: Letters, s: string)
    ensures var n := RunLength(InWord(letter), s);
            AllWord(letter, s[..n]) && !WordGoesOn(letter, s[n..])
  {
    RunIs(InWord(letter), s);
  }

  lemma SpacesAreRun(s: string)
    ensures var n := RunLength(IsSpace, s);
            AllSpaces(s[..n]) && (n < |s| ==> s[n] != ' ')
  {
    RunIs(IsSpace, s);
  }

  lemma RunIsSpaces(spaces: string, after: string)
    requires AllSpaces(spaces) && (after != "" ==> after[0] != ' ')
    ensures RunLength(IsSpace, spaces + after) == |spaces|
  {
    RunThen(IsSpace, spaces, after);
  }

  lemma FlagsAreRead(flags: string, after: string)
    requires FlagsOk(flags) && (after != "" ==> !IsFlag(after[0]))
    ensures RunLength(IsFlag, flags + after) == |flags|
  {
    RunThen(IsFlag, flags, after);
  }

  /** `in`, whole, after some spaces is the next word. */
  lemma InIsNext(letter: Letters, s: string, k: nat)
    requires Sane(letter) && InComesAfter(letter, s, k)
    ensures NextWord(letter, s) == "in" && k == RunLength(IsSpace, s)
  {
    var more := s[k..];
    assert s == s[..k] + more;
    assert more[0] == s[k..k + 2][0] && "in"[0] == 'i';
    RunIsSpaces(s[..k], more);
    assert more == "in" + s[k + 2..] && more[..2] == "in";
    assert AllWord(letter, "in");
    RunIsWord(letter, "in", s[k + 2..]);
    hide RunLength, IsWord;
  }

  lemma NextIsIn(letter: Letters, s: string)
    requires NextWord(letter, s) == "in"
    ensures InComesAfter(letter, s, RunLength(IsSpace, s))
  {
    hide RunLength, WordGoesOn;
    var n := RunLength(IsSpace, s);
    SpacesAreRun(s);
    var more := s[n..];
    WordIsRun(letter, more);
    assert more[..2] == s[n..n + 2] && more[2..] == s[n + 2..];
  }

  // ---- What the tokenizer reads first is a lexeme

  /** One character more at the front, escaped as it has to be. */
  lemma EscapedCons(c: char, rest: string)
    requires PatternOk(rest)
    ensures c != '\\' ==> PatternOk([c] + rest)
                           && Escaped([c] + rest) == (if c == '/' then "\\/" else [c]) + Escaped(rest)
    ensures c != '/' ==> PatternOk(['\\', c] + rest) && Escaped(['\\', c] + rest) == ['\\', c] + Escaped(rest)
  {
    assert ([c] + rest)[1..] == rest && (['\\', c] + rest)[2..] == rest && (['\\', c] + rest)[..2] == ['\\', c];
  }

  lemma Taken(s: string, k: nat, m: nat)
    requires k + m <= |s|
    ensures s[..k + m] == s[..k] + s[k..][..m]
  {}

  lemma Regrouped(a: string, b: string, c: string)
    ensures a + (b + c) == a + b + c
  {}

  lemma {:induction false} PatternIsEscaped(s: string)
    requires Pattern(s).Ok?
    ensures var (p, n) := Pattern(s).value; PatternOk(p) && s[..n] == Escaped(p) + "/"
  {
    if s[0] == '/' {
      assert s[..1] == "/" && Escaped("") + "/" == "/";
    } else {
      var k := if s[0] == '\\' then 2 else 1;
      PatternIsEscaped(s[k..]);
      var (rest, m) := Pattern(s[k..]).value;
      EscapedCons(s[k - 1], rest);
      hide Escaped, PatternOk;
      Taken(s, k, m);
      Regrouped(s[..k], Escaped(rest), "/");
      assert s[..1] == [s[0]];
      assert k == 2 ==> s[..2] == [s[0], s[1]];
    }
  }

  lemma QuotedIsLexeme(letter: Letters, s: string)
    requires s != "" && (s[0] == '\'' || s[0] == '"') && LexOne(letter, s).Ok?
    ensures var x := LexOne(letter, s).value; IsLexeme(letter, s[..x.length], s[x.length..], x.tokens)
  {
    var v := UpTo(s[0], s[1..]).value;
    hide UpTo, LexRegex, LexWord;
    assert s[1..][..|v|] == v && s[1..][|v|] == s[|v| + 1];
    assert s[..|v| + 2] == [s[0]] + v + [s[0]];
  }

  lemma NotInPieces(s: string, k: nat)
    requires k + 5 <= |s| && s[..3] == "not"
    ensures s[..k + 5][..3] == "not" && s[..k + 5][3..] + s[k + 5..] == s[3..] && |s[..k + 5]| - 5 == k
  {
    assert s[..k + 5][..3] == s[..3];
    assert s[..k + 5] + s[k + 5..] == s;
    assert (s[..k + 5] + s[k + 5..])[3..] == s[..k + 5][3..] + s[k + 5..];
  }

  lemma NotInIsLexeme(letter: Letters, s: string, k: nat)
    requires |s| >= 3 && s[..3] == "not" && 0 < k && InComesAfter(letter, s[3..], k)
    ensures k + 5 <= |s| && IsLexeme(letter, s[..k + 5], s[k + 5..], [Unsupported("not in")])
  {
    NotInPieces(s, k);
    hide InComesAfter;
  }

  lemma NotAtOnce(letter: Letters, s: string, k: nat)
    requires Sane(letter) && InComesAfter(letter, s, k) && !WordGoesOn(letter, s)
    ensures k > 0
  {
    assert s[k] == s[k..k + 2][0] && "in"[0] == 'i';
    assert IsWord(letter, s[k]);
  }

  lemma NotIsLexeme(letter: Letters, s: string)
    requires Sane(letter) && |s| >= 3 && s[..3] == "not" && !WordGoesOn(letter, s[3..])
    requires NextWord(letter, s[3..]) != "in"
    ensures IsLexeme(letter, s[..3], s[3..], [Word("not")])
  {
    forall k: nat ensures !InComesAfter(letter, s[3..], k) {
      if InComesAfter(letter, s[3..], k) { InIsNext(letter, s[3..], k); }
    }
    hide InComesAfter, NextWord, WordGoesOn;
    forall i | 0 <= i < 3 ensures IsWord(letter, "not"[i]) { assert letter("not"[i]); }
  }

  lemma PlainIsLexeme(letter: Letters, w: string, after: string)
    requires w != "" && AllWord(letter, w) && !WordGoesOn(letter, after) && w != "not"
    ensures IsLexeme(letter, w, after, [if w == "in" then Unsupported("in") else Word(w)])
  {
    hide AllWord, WordGoesOn;
  }

  lemma WordIsLexeme(letter: Letters, s: string)
    requires Sane(letter) && s != "" && IsWord(letter, s[0])
    ensures var x := LexWord(letter, s); IsLexeme(letter, s[..x.length], s[x.length..], x.tokens)
  {
    hide NextWord, IsWord, WordGoesOn, InComesAfter, IsLexeme, AllWord, Sane;
    var n := RunLength(InWord(letter), s);
    assert n > 0;
    WordIsRun(letter, s);
    hide RunLength;
    var w, after := s[..n], s[n..];
    if w != "not" {
      PlainIsLexeme(letter, w, after);
    } else if NextWord(letter, after) == "in" {
      NextIsIn(letter, after);
      NotAtOnce(letter, after, RunLength(IsSpace, after));
      NotInIsLexeme(letter, s, RunLength(IsSpace, after));
    } else {
      NotIsLexeme(letter, s);
    }
  }

  lemma RegexBodyIsLexeme(t: string) returns (spaces: string, pattern: string, flags: string)
    requires LexRegex(t).Ok?
    ensures AllSpaces(spaces) && PatternOk(pattern) && FlagsOk(flags)
    ensures var x := LexRegex(t).value;
            && x.tokens == [Tilde, Regex(pattern, flags)] && x.length <= |t|
            && t[..x.length] == spaces + ("/" + (Escaped(pattern) + "/" + flags))
            && (x.length < |t| ==> !IsFlag(t[x.length]))
  {
    hide RunLength, Pattern, PatternOk, FlagsOk, Escaped;
    var k := RunLength(IsSpace, t);
    SpacesAreRun(t);
    spaces := t[..k];
    var from := t[k + 1..];
    PatternIsEscaped(from);
    var n := Pattern(from).value.1;
    pattern := Pattern(from).value.0;
    var at := k + 1 + n;
    var after := t[at..];
    FlagsAreOk(after);
    RunIs(IsFlag, after);
    flags := after[..RunLength(IsFlag, after)];
    assert flags == t[at..at + |flags|];
    assert spaces + ("/" + (from[..n] + flags)) == t[..at + |flags|];
    assert at + |flags| < |t| ==> t[at + |flags|] == after[|flags|];
  }

  lemma RegexIsLexeme(letter: Letters, s: string)
    requires |s| >= 2 && s[..2] == "=~" && LexRegex(s[2..]).Ok?
    ensures var x := LexRegex(s[2..]).value;
            x.length + 2 <= |s| && IsLexeme(letter, s[..x.length + 2], s[x.length + 2..], x.tokens)
  {
    hide PatternOk, FlagsOk, Escaped;
    var spaces, pattern, flags := RegexBodyIsLexeme(s[2..]);
    var n := LexRegex(s[2..]).value.length;
    hide LexRegex;
    assert s[..n + 2] == "=~" + s[2..][..n];
    assert n + 2 < |s| ==> s[n + 2..][0] == s[2..][n];
    assert SaysRegex(s[..n + 2], s[n + 2..], pattern, flags);
  }

  lemma MarkIsLexeme(letter: Letters, s: string)
    requires s != "" && LexOne(letter, s).Ok? && !IsWord(letter, s[0]) && s[0] != '\'' && s[0] != '"'
    requires !("=~" <= s)
    ensures var x := LexOne(letter, s).value; IsLexeme(letter, s[..x.length], s[x.length..], x.tokens)
  {
    hide LexRegex, LexWord, UpTo, IsWord;
    var n := LexOne(letter, s).value.length;
    assert n == 1 ==> s[..n] == [s[0]];
    assert n == 2 ==> s[..n] == [s[0], s[1]];
    assert n == 3 ==> s[..n] == [s[0], s[1], s[2]];
    assert n < |s| ==> s[n..][0] == s[n];
  }

  lemma OneIsLexeme(letter: Letters, s: string)
    requires Sane(letter) && s != "" && LexOne(letter, s).Ok?
    ensures var x := LexOne(letter, s).value; IsLexeme(letter, s[..x.length], s[x.length..], x.tokens)
  {
    hide LexRegex, LexWord, UpTo, IsLexeme;
    if s[0] == '\'' || s[0] == '"' {
      QuotedIsLexeme(letter, s);
    } else if IsWord(letter, s[0]) {
      NotAMark(letter, s[0]);
      WordIsLexeme(letter, s);
    } else if "=~" <= s {
      RegexIsLexeme(letter, s);
    } else {
      MarkIsLexeme(letter, s);
    }
  }

  // ---- A lexeme is what the tokenizer reads first

  lemma QuotedIsRead(letter: Letters, quote: char, v: string, after: string)
    requires (quote == '\'' || quote == '"') && quote !in v
    ensures LexOne(letter, [quote] + v + [quote] + after) == Ok(Lexeme([Quoted(v)], |v| + 2))
  {
    var s := [quote] + v + [quote] + after;
    QuotedReads(quote, v, after);
    assert s[1..] == v + [quote] + after;
    hide UpTo, LexRegex, LexWord;
  }

  lemma RegexBodyIsRead(spaces: string, pattern: string, flags: string, after: string)
    requires AllSpaces(spaces) && PatternOk(pattern) && FlagsOk(flags) && (after != "" ==> !IsFlag(after[0]))
    ensures LexRegex(spaces + ("/" + (Escaped(pattern) + "/" + (flags + after))))
            == Ok(Lexeme([Tilde, Regex(pattern, flags)], |spaces| + |Escaped(pattern)| + |flags| + 2))
  {
    hide RunLength, Pattern, PatternOk, FlagsOk, Escaped;
    var tail := flags + after;
    var inner := Escaped(pattern) + "/" + tail;
    var t := spaces + ("/" + inner);
    RunIsSpaces(spaces, "/" + inner);
    assert t[|spaces|] == '/' && t[|spaces| + 1..] == inner;
    EscapedReads(pattern, tail);
    var at := |spaces| + |Escaped(pattern)| + 2;
    assert t[at..] == tail;
    FlagsAreRead(flags, after);
    assert t[at..at + |flags|] == flags;
  }

  lemma RegexPieces(spaces: string, body: string, flags: string, after: string)
    ensures "=~" + (spaces + ("/" + (body + "/" + flags))) + after
            == "=~" + (spaces + ("/" + (body + "/" + (flags + after))))
  {}

  lemma TildeIsRead(letter: Letters, piece: string, after: string, t: string, toks: seq<Token>)
    requires |piece| >= 2 && piece + after == "=~" + t && LexRegex(t) == Ok(Lexeme(toks, |piece| - 2))
    ensures LexOne(letter, piece + after) == Ok(Lexeme(toks, |piece|))
  {
    hide LexRegex, LexOne;
    TildeLexes(letter, t, toks, |piece| - 2);
  }

  lemma RegexSpaces(piece: string, after: string, pattern: string, flags: string) returns (spaces: string)
    requires SaysRegex(piece, after, pattern, flags)
    ensures AllSpaces(spaces) && |piece| == |spaces| + |Escaped(pattern)| + |flags| + 4
    ensures piece == "=~" + (spaces + ("/" + (Escaped(pattern) + "/" + flags)))
    ensures piece + after == "=~" + (spaces + ("/" + (Escaped(pattern) + "/" + (flags + after))))
  {
    hide PatternOk, FlagsOk, Escaped;
    spaces :| AllSpaces(spaces) && piece == "=~" + (spaces + ("/" + (Escaped(pattern) + "/" + flags)));
    RegexPieces(spaces, Escaped(pattern), flags, after);
  }

  lemma RegexIsRead(letter: Letters, piece: string, after: string, pattern: string, flags: string)
    requires SaysRegex(piece, after, pattern, flags)
    ensures LexOne(letter, piece + after) == Ok(Lexeme([Tilde, Regex(pattern, flags)], |piece|))
  {
    var spaces := RegexSpaces(piece, after, pattern, flags);
    RegexBodyIsRead(spaces, pattern, flags, after);
    hide PatternOk, FlagsOk, Escaped, LexRegex, LexOne, SaysRegex, AllSpaces;
    var t := spaces + ("/" + (Escaped(pattern) + "/" + (flags + after)));
    TildeIsRead(letter, piece, after, t, [Tilde, Regex(pattern, flags)]);
  }

  lemma PlainWordIsRead(letter: Letters, w: string, after: string)
    requires Sane(letter) && w != "" && AllWord(letter, w) && !WordGoesOn(letter, after) && w != "in"
    requires w == "not" ==> NextWord(letter, after) != "in"
    ensures LexOne(letter, w + after) == Ok(Lexeme([Word(w)], |w|))
  {
    var s := w + after;
    RunIsWord(letter, w, after);
    assert s[..|w|] == w && s[|w|..] == after && s[0] == w[0];
    NotAMark(letter, w[0]);
    hide RunLength, NextWord, IsWord;
  }

  lemma InIsRead(letter: Letters, after: string)
    requires Sane(letter) && !WordGoesOn(letter, after)
    ensures LexOne(letter, "in" + after) == Ok(Lexeme([Unsupported("in")], 2))
  {
    var s := "in" + after;
    RunIsWord(letter, "in", after);
    assert s[..2] == "in";
    hide RunLength, NextWord;
  }

  lemma NotInIsRead(letter: Letters, piece: string, after: string)
    requires Sane(letter) && |piece| > 5 && piece[..3] == "not"
    requires InComesAfter(letter, piece[3..] + after, |piece| - 5)
    ensures LexOne(letter, piece + after) == Ok(Lexeme([Unsupported("not in")], |piece|))
  {
    var s, rest := piece + after, piece[3..] + after;
    assert s == "not" + rest && rest[0] == rest[..|piece| - 5][0] == ' ';
    InIsNext(letter, rest, |piece| - 5);
    MarkStartsNoWord(letter, ' ');
    RunIsWord(letter, "not", rest);
    assert s[..3] == "not" && s[3..] == rest && s[0] == 'n';
    hide RunLength, NextWord;
  }

  /** No word, quoted text or regular expression, nor `in`. */
  predicate IsMark(toks: seq<Token>) {
    && (toks != [] ==> !toks[0].Quoted? && !toks[0].Word? && !toks[0].Tilde?)
    && (toks != [] && toks[0].Unsupported? ==> toks[0].op in ["<", ">", "<=", ">="])
  }

  lemma ShortMarkIsRead(letter: Letters, piece: string, after: string, toks: seq<Token>)
    requires Sane(letter) && IsLexeme(letter, piece, after, toks) && IsMark(toks)
    requires |piece| == 1
    ensures LexOne(letter, piece + after) == Ok(Lexeme(toks, |piece|))
  {
    hide LexRegex, LexWord, UpTo, IsWord, RunLength;
    var s := piece + after;
    assert toks != [] ==> toks == [toks[0]];
    assert after != "" ==> s[|piece|] == after[0];
    assert "=" <= after <==> after != "" && after[0] == '=';
    assert s[0] == piece[0];
  }

  lemma LongMarkIsRead(letter: Letters, piece: string, after: string, toks: seq<Token>)
    requires Sane(letter) && IsLexeme(letter, piece, after, toks) && IsMark(toks)
    requires |piece| > 1
    ensures LexOne(letter, piece + after) == Ok(Lexeme(toks, |piece|))
  {
    hide LexRegex, LexWord, UpTo, IsWord, RunLength;
    var s := piece + after;
    assert toks != [] ==> toks == [toks[0]];
    assert after != "" ==> s[|piece|] == after[0];
    assert "=" <= after <==> after != "" && after[0] == '=';
    assert s[0] == piece[0] && s[1] == piece[1];
    assert |piece| > 2 ==> s[2] == piece[2];
  }

  lemma MarkIsRead(letter: Letters, piece: string, after: string, toks: seq<Token>)
    requires Sane(letter) && IsLexeme(letter, piece, after, toks) && IsMark(toks)
    ensures LexOne(letter, piece + after) == Ok(Lexeme(toks, |piece|))
  {
    assert piece != "";
    hide LexOne, IsLexeme;
    if |piece| == 1 {
      ShortMarkIsRead(letter, piece, after, toks);
    } else {
      LongMarkIsRead(letter, piece, after, toks);
    }
  }

  lemma LexemeIsRead(letter: Letters, piece: string, after: string, toks: seq<Token>)
    requires Sane(letter) && IsLexeme(letter, piece, after, toks)
    ensures LexOne(letter, piece + after) == Ok(Lexeme(toks, |piece|))
  {
    hide LexOne, NextWord, InComesAfter, AllWord, SaysRegex;
    if toks != [] && toks[0].Quoted? {
      assert toks == [toks[0]];
      QuotedIsRead(letter, piece[0], toks[0].v, after);
    } else if toks != [] && toks[0].Word? {
      assert toks == [toks[0]];
      if toks[0].v == "not" && NextWord(letter, after) == "in" { NextIsIn(letter, after); }
      PlainWordIsRead(letter, toks[0].v, after);
    } else if toks != [] && toks[0].Tilde? {
      assert toks == [Tilde, Regex(toks[1].pattern, toks[1].flags)];
      RegexIsRead(letter, piece, after, toks[1].pattern, toks[1].flags);
    } else if toks == [Unsupported("in")] {
      InIsRead(letter, after);
    } else if toks == [Unsupported("not in")] {
      NotInIsRead(letter, piece, after);
    } else {
      MarkIsRead(letter, piece, after, toks);
    }
  }

  // ---- The tokenizer

  lemma ReadFirst(letter: Letters, s: string, toks: seq<Token>, n: nat, k: nat)
    requires Sane(letter) && ReadsFirst(letter, s, toks, n, k)
    ensures LexOne(letter, s) == Ok(Lexeme(toks[..k], n))
  {
    assert s[..n] + s[n..] == s;
    LexemeIsRead(letter, s[..n], s[n..], toks[..k]);
  }

  lemma FirstRead(letter: Letters, s: string, more: seq<Token>)
    requires Sane(letter) && s != "" && LexOne(letter, s).Ok?
    ensures var x := LexOne(letter, s).value; ReadsFirst(letter, s, x.tokens + more, x.length, |x.tokens|)
  {
    hide LexOne, IsLexeme;
    var x := LexOne(letter, s).value;
    OneIsLexeme(letter, s);
    assert (x.tokens + more)[..|x.tokens|] == x.tokens;
  }

  /** The tokenizer yields exactly the tokens that the text's lexemes say. */
  lemma {:induction false} LexIffReads(letter: Letters, s: string, toks: seq<Token>)
    requires Sane(letter)
    ensures Lex(letter, s) == Ok(toks) <==> Reads(letter, s, toks)
    decreases |s|
  {
    hide LexOne, IsLexeme, Sane;
    if s != "" {
      if Lex(letter, s) == Ok(toks) {
        var x := LexOne(letter, s).value;
        var more := Lex(letter, s[x.length..]).value;
        FirstRead(letter, s, more);
        LexIffReads(letter, s[x.length..], more);
        assert toks == x.tokens + more && toks[|x.tokens|..] == more;
      }
      if Reads(letter, s, toks) {
        var n: nat, k: nat :| ReadsFirst(letter, s, toks, n, k) && Reads(letter, s[n..], toks[k..]);
        ReadFirst(letter, s, toks, n, k);
        LexIffReads(letter, s[n..], toks[k..]);
        assert toks[..k] + toks[k..] == toks;
      }
    }
  }

  /** No lexeme begins the text. */
  ghost predicate NoLexeme(letter: Letters, s: string) {
    forall n: nat, toks: seq<Token> | 0 < n <= |s| :: !IsLexeme(letter, s[..n], s[n..], toks)
  }

  /** `=~`, `k` spaces and the slash a pattern comes after. */
  predicate OpensRegex(s: string, k: nat) { 2 + k < |s| && AllSpaces(s[2..2 + k]) && s[2 + k] == '/' }

  /** What is wrong where no lexeme begins. */
  ghost predicate IsWrong(s: string, x: WhenError) {
    if s == "" then false
    else if s[0] == '\'' || s[0] == '"' then x == UnterminatedString
    else if "=~" <= s then x == if exists k: nat :: OpensRegex(s, k) then UnterminatedRegex else RegexExpected
    else x == UnexpectedChar(s[0])
  }

  ghost predicate StopsPast(letter: Letters, s: string, toks: seq<Token>, n: nat) {
    0 < n <= |s| && IsLexeme(letter, s[..n], s[n..], toks)
  }

  /** Past some lexemes no lexeme begins, and `x` is wrong there. */
  ghost predicate Stops(letter: Letters, s: string, x: WhenError)
    decreases |s|
  {
    || (NoLexeme(letter, s) && IsWrong(s, x))
    || exists n: nat, toks :: StopsPast(letter, s, toks, n) && Stops(letter, s[n..], x)
  }

  lemma {:induction false} PatternStops(s: string)
    requires Pattern(s).Err?
    ensures Pattern(s).error == UnterminatedRegex
  {
    if s != "" {
      if s[0] == '\\' {
        if |s| > 1 { PatternStops(s[2..]); }
      } else {
        PatternStops(s[1..]);
      }
    }
  }

  lemma {:induction false} QuotedStops(quote: char, s: string)
    requires UpTo(quote, s).Err?
    ensures UpTo(quote, s).error == UnterminatedString
  {
    if s != "" { QuotedStops(quote, s[1..]); }
  }

  lemma SlashAfterSpaces(s: string, k: nat)
    requires "=~" <= s
    ensures OpensRegex(s, k) <==> k == RunLength(IsSpace, s[2..]) && 2 + k < |s| && s[2 + k] == '/'
  {
    var t := s[2..];
    SpacesAreRun(t);
    hide RunLength;
    assert 2 + k <= |s| ==> s[2..2 + k] == t[..k];
    if OpensRegex(s, k) {
      RunIsSpaces(t[..k], t[k..]);
      assert t == t[..k] + t[k..];
    }
  }

  lemma RegexIsWrong(s: string)
    requires "=~" <= s && LexRegex(s[2..]).Err?
    ensures IsWrong(s, LexRegex(s[2..]).error)
  {
    hide RunLength, Pattern;
    var t := s[2..];
    var spaces := RunLength(IsSpace, t);
    SlashAfterSpaces(s, spaces);
    if spaces < |t| && t[spaces] == '/' {
      PatternStops(t[spaces + 1..]);
      assert OpensRegex(s, spaces);
    } else if k: nat :| OpensRegex(s, k) {
      SlashAfterSpaces(s, k);
    }
  }

  lemma StopPast(letter: Letters, s: string, toks: seq<Token>, n: nat)
    requires Sane(letter) && StopsPast(letter, s, toks, n)
    ensures LexOne(letter, s) == Ok(Lexeme(toks, n))
  {
    assert s[..n] + s[n..] == s;
    LexemeIsRead(letter, s[..n], s[n..], toks);
  }

  lemma OneIsWrong(letter: Letters, s: string)
    requires Sane(letter) && s != "" && LexOne(letter, s).Err?
    ensures NoLexeme(letter, s) && IsWrong(s, LexOne(letter, s).error)
  {
    hide LexRegex, LexWord, UpTo, IsLexeme, IsWord;
    forall n: nat, toks: seq<Token> | 0 < n <= |s| ensures !IsLexeme(letter, s[..n], s[n..], toks) {
      if StopsPast(letter, s, toks, n) { StopPast(letter, s, toks, n); }
    }
    if s[0] == '\'' || s[0] == '"' {
      QuotedStops(s[0], s[1..]);
    } else if "=~" <= s {
      RegexIsWrong(s);
    }
  }

  lemma WrongIsOne(s: string, x: WhenError, y: WhenError)
    requires IsWrong(s, x) && IsWrong(s, y)
    ensures x == y
  {}

  lemma StopsHere(letter: Letters, s: string, x: WhenError)
    requires NoLexeme(letter, s)
    ensures Stops(letter, s, x) <==> IsWrong(s, x)
  {}

  lemma EmptyStops(letter: Letters, x: WhenError)
    ensures !Stops(letter, "", x)
  {}

  /** The tokenizer's error is what is wrong with the text where it first cannot be cut on. */
  lemma {:induction false} LexStopsIff(letter: Letters, s: string, x: WhenError)
    requires Sane(letter)
    ensures Lex(letter, s) == Err(x) <==> Stops(letter, s, x)
    decreases |s|
  {
    hide LexOne, IsLexeme, Sane, IsWrong;
    if s == "" {
      EmptyStops(letter, x);
    } else if LexOne(letter, s).Ok? {
      var one := LexOne(letter, s).value;
      OneIsLexeme(letter, s);
      assert StopsPast(letter, s, one.tokens, one.length);
      LexStopsIff(letter, s[one.length..], x);
      if Stops(letter, s, x) {
        assert !NoLexeme(letter, s);
        var n: nat, toks :| StopsPast(letter, s, toks, n) && Stops(letter, s[n..], x);
        StopPast(letter, s, toks, n);
      }
    } else {
      OneIsWrong(letter, s);
      StopsHere(letter, s, x);
      if IsWrong(s, x) { WrongIsOne(s, x, LexOne(letter, s).error); }
    }
  }

  /** A text parses to an expression just when its lexemes say tokens that say it. */
  lemma ParsesWhatTheTextSays(letter: Letters, engine: Engine, src: string, e: Expr)
    requires Sane(letter)
    ensures ParseText(letter, engine, src) == Ok(e)
            <==> exists toks :: Reads(letter, src, toks) && SaysOr(engine, toks, 0, |toks|, e)
  {
    hide Lex, Parse, Reads, SaysOr, Sane;
    if ParseText(letter, engine, src) == Ok(e) {
      var toks := Lex(letter, src).value;
      LexIffReads(letter, src, toks);
      ParsesExactlyTheGrammar(engine, toks, e);
    }
    if toks :| Reads(letter, src, toks) && SaysOr(engine, toks, 0, |toks|, e) {
      LexIffReads(letter, src, toks);
      ParsesExactlyTheGrammar(engine, toks, e);
    }
  }

  // ---- What is compared with

  function Comparison(key: string, equal: bool, value: string): string {
    key + " " + (if equal then "==" else "!=") + " " + value
  }

  lemma OperatorReads(letter: Letters, equal: bool, rest: string)
    requires Sane(letter)
    ensures LexOne(letter, (if equal then "==" else "!=") + " " + rest)
            == Ok(Lexeme([if equal then EqEq else BangEq], 2))
  {
    var after := " " + rest;
    assert after[0] == ' ';
    if equal {
      MarkIsRead(letter, "==", after, [EqEq]);
      assert "==" + after == "==" + " " + rest;
    } else {
      MarkIsRead(letter, "!=", after, [BangEq]);
      assert "!=" + after == "!=" + " " + rest;
    }
  }

  lemma KeyReads(letter: Letters, key: string, rest: string)
    requires Sane(letter) && KeyOk(letter, key) && rest != "" && rest[0] in MARKS && rest[0] != ' '
    ensures LexOne(letter, key + " " + rest) == Ok(Lexeme([Word(key)], |key|))
  {
    NextIsNone(letter, rest);
    MarkStartsNoWord(letter, ' ');
    hide IsWord, Sane;
    PlainWordIsRead(letter, key, " " + rest);
    assert key + (" " + rest) == key + " " + rest;
  }

  lemma LastReads(letter: Letters, s: string, t: Token)
    requires s != "" && LexOne(letter, s) == Ok(Lexeme([t], |s|))
    ensures Lex(letter, s) == Ok([t])
  {
    hide LexOne;
    NothingReads(letter);
    assert s[|s|..] == "" && [t] + [] == [t];
  }

  lemma OneThen(letter: Letters, a: string, rest: string, t: Token, toks: seq<Token>)
    requires a != "" && LexOne(letter, a + " " + rest) == Ok(Lexeme([t], |a|)) && Lex(letter, rest) == Ok(toks)
    ensures Lex(letter, a + " " + rest) == Ok([t] + toks)
  {
    hide LexOne, Lex;
    assert (a + " " + rest)[|a|..] == " " + rest;
    ThenRest(letter, a + " " + rest, [t], |a|, rest);
  }

  lemma Spaced(a: string, b: string, c: string)
    ensures a + " " + b + " " + c == a + " " + (b + " " + c)
  {}

  lemma ThreeLex(letter: Letters, key: string, op: string, value: string, o: Token, t: Token)
    requires Sane(letter) && KeyOk(letter, key) && op != "" && op[0] in MARKS && op[0] != ' ' && value != ""
    requires LexOne(letter, op + " " + value) == Ok(Lexeme([o], |op|))
    requires LexOne(letter, value) == Ok(Lexeme([t], |value|))
    ensures Lex(letter, key + " " + op + " " + value) == Ok([Word(key)] + ([o] + [t]))
  {
    hide Sane, LexOne, Lex, KeyOk;
    var more := op + " " + value;
    assert more[0] == op[0];
    KeyReads(letter, key, more);
    LastReads(letter, value, t);
    OneThen(letter, op, value, o, [t]);
    OneThen(letter, key, more, Word(key), [o] + [t]);
    Spaced(key, op, value);
  }

  lemma ComparisonLexes(letter: Letters, key: string, equal: bool, value: string, t: Token)
    requires Sane(letter) && KeyOk(letter, key) && value != ""
    requires LexOne(letter, value) == Ok(Lexeme([t], |value|))
    ensures Lex(letter, Comparison(key, equal, value)) == Ok([Word(key), if equal then EqEq else BangEq, t])
  {
    var o := if equal then EqEq else BangEq;
    OperatorReads(letter, equal, value);
    hide Sane, LexOne, Lex;
    ThreeLex(letter, key, if equal then "==" else "!=", value, o, t);
    assert [Word(key)] + ([o] + [t]) == [Word(key), o, t];
  }

  lemma ComparisonSays(engine: Engine, key: string, equal: bool, t: Token, value: Value)
    requires IsKey(Word(key)) && SaysValue(t, value)
    ensures Parse(engine, [Word(key), if equal then EqEq else BangEq, t]) == Ok(Equals(key, value, equal))
  {
    var toks, e := [Word(key), if equal then EqEq else BangEq, t], Equals(key, value, equal);
    assert toks[0..3] == toks;
    assert SaysAtom(engine, toks[0..3], e);
    ParsesExactlyTheGrammar(engine, toks, e);
  }

  lemma BareAndQuotedRead(letter: Letters, word: string)
    requires Sane(letter) && WordOk(letter, word)
    ensures LexOne(letter, word) == Ok(Lexeme([Word(word)], |word|))
    ensures LexOne(letter, "'" + word + "'") == Ok(Lexeme([Quoted(word)], |"'" + word + "'"|))
  {
    forall k | 0 <= k < |word| ensures word[k] != '\'' { NotAMark(letter, word[k]); }
    hide LexOne;
    assert word + "" == word && "'" + word + "'" + "" == "'" + word + "'";
    PlainWordIsRead(letter, word, "");
    QuotedIsRead(letter, '\'', word, "");
    assert ['\''] + word + ['\''] + "" == "'" + word + "'";
  }

  function WordStands(word: string): Value {
    if word == "true" then Flag(true) else if word == "false" then Flag(false) else Text(word)
  }

  /** Compared with a bare word, a key is compared with that word's text, just as when it
      is quoted; only `true` and `false` stand for the flags. */
  lemma BareWordIsItsText(letter: Letters, engine: Engine, key: string, equal: bool, word: string)
    requires Sane(letter) && KeyOk(letter, key) && WordOk(letter, word)
    ensures ParseText(letter, engine, Comparison(key, equal, word))
            == Ok(Equals(key, WordStands(word), equal))
    ensures ParseText(letter, engine, Comparison(key, equal, "'" + word + "'")) == Ok(Equals(key, Text(word), equal))
  {
    BareAndQuotedRead(letter, word);
    hide LexOne, Sane, Comparison, WordOk;
    ComparisonLexes(letter, key, equal, word, Word(word));
    ComparisonLexes(letter, key, equal, "'" + word + "'", Quoted(word));
    ComparisonSays(engine, key, equal, Word(word), WordStands(word));
    ComparisonSays(engine, key, equal, Quoted(word), Text(word));
  }
}
